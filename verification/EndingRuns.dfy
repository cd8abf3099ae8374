/** How shipments end over every run: what each status comes to once all events are
    processed, what becomes of a cancellation, and when FAILED and CANCELLED are left. */
module EndingRuns {
  import opened Domain
  import opened Events
  import opened InventoryRules
  import opened StockInvariant
  import opened InventorySafety
  import opened Effects
  import opened Talk
  import opened System
  import opened SystemLogs
  import opened Fulfilment
  import opened Agreement
  import opened AgreementRuns
  import opened Saga
  import opened SagaRuns
  import opened Endings
  import AgreementKept
  import R = ReservationRules
  import S = ShipmentRules
  import P = PlacementRules
  import W = OccupancyRules

  // ----- every step -----

  ghost predicate InCourse(world: map<Uuid, Site>, s: Sys) {
    InOrder(world, s) && EndsOk(s)
  }

  /** Neither the inventory nor the shipment service moves, and nothing passes between them. */
  lemma EndsApart(s: Sys, t: Sys)
    requires EndsOk(s) && MarksReal(s) && t.inv == s.inv && t.ship == s.ship && s.done <= t.done
    requires forall i: nat :: Done(t, Shipments, Inventory, i) ==> Done(s, Shipments, Inventory, i)
    requires forall j: nat :: Done(t, Inventory, Shipments, j) ==> Done(s, Inventory, Shipments, j)
    ensures EndsOk(t)
  {
    GrowsReflexive(s.inv);
    hide Grows, MarksReal;
    EndsAfterMove(s, t);
  }

  lemma EndsDelivered(world: map<Uuid, Site>, s: Sys, consumer: Service, ref: Ref, reply: Reply<Location>)
    requires Agree(s) && SagaOk(s) && EndsOk(s) && StockOk(s.inv)
    ensures EndsOk(DeliverTo(world, s, consumer, ref, reply))
  {
    assert MarksReal(s);
    hide Agree, SagaOk, EndsOk, StockOk, MarksReal, HonestFor, InventoryRules.Handle, S.Handle, P.Handle, W.Handle;
    hide R.Handle;
    var t := DeliverTo(world, s, consumer, ref, reply);
    if t != s {
      match consumer
      case Inventory => EndsAfterConsumed(s, ref, reply, t);
      case Reservations => EndsApart(s, t);
      case Shipments => EndsAfterHeard(s, ref, t);
      case Placements => EndsApart(s, t);
      case Warehouses => EndsApart(s, t);
    }
  }

  lemma EndsNext(world: map<Uuid, Site>, s: Sys, a: Step)
    requires InCourse(world, s)
    ensures EndsOk(Next(world, s, a))
  {
    assert StockOk(s.inv) && Agree(s) && SagaOk(s) && ShipmentsOk(s) && LookupsOk(s) && MarksReal(s);
    hide InOrder, Agree, SagaOk, ShipmentsOk, LookupsOk, EndsOk, StockOk, MarksReal, Commit, HonestFor, DeliverTo;
    hide R.Create, R.Cancel, S.Create, S.Transition, P.Assign, W.SetStatus, Proper, P.Due, Recognised;
    var t := Next(world, s, a);
    match a
    case Command(tr) =>
      ProperCommand(world, s, tr);
      if t != s { EndsAfterCommit(s, tr, t); }
    case Expire(r) => if t != s { EndsAfterCommit(s, Expiring(r), t); }
    case Deliver(consumer, ref, reply) => EndsDelivered(world, s, consumer, ref, reply);
    case Claim(r, seen, id) => if t != s { EndsAfterClaim(s, r, seen, id, t); }
    case Advance(id, action) => if t != s { EndsAfterAdvance(s, id, action, t); }
    case _ => EndsApart(s, t);
  }

  lemma CourseGoesOn(world: map<Uuid, Site>, s: Sys, a: Step)
    requires InCourse(world, s)
    ensures InCourse(world, Next(world, s, a))
  {
    EndsNext(world, s, a);
    hide Next, SagaOk, Good, LookupsOk, EndsOk;
    SagaNext(world, s, a);
    GoodNext(world, s, a);
    LookupsNext(world, s, a);
  }

  lemma {:induction false} RunInCourse(world: map<Uuid, Site>, s: Sys, steps: seq<Step>)
    requires InCourse(world, s)
    ensures InCourse(world, System.Run(world, s, steps))
    decreases |steps|
  {
    hide Next, InCourse;
    if steps != [] {
      CourseGoesOn(world, s, steps[0]);
      RunInCourse(world, Next(world, s, steps[0]), steps[1..]);
    }
  }

  lemma EmptyInCourse(world: map<Uuid, Site>, now: Time)
    ensures InCourse(world, Empty(world, now))
  {
    EmptyInOrder(world, now);
    hide InOrder;
  }

  lemma CourseFacts(world: map<Uuid, Site>, s: Sys)
    requires InCourse(world, s)
    ensures EndsOk(s) && SagaOk(s) && ShipmentsOk(s) && AnswersOk(s) && Honoured(s.inv) && LookupsOk(s)
    ensures Agree(s) && TalkOk(s.inv) && Typed(s) && MarksReal(s) && StockOk(s.inv)
  {
  }

  // ----- once everything is processed -----

  /** Every event between the shipment service and the inventory has its inbox marker. */
  ghost predicate Exchanged(s: Sys) {
    && (forall j: nat | j < |s.ship.outbox| :: Done(s, Inventory, Shipments, j))
    && (forall i: nat | i < |s.inv.outbox| :: Done(s, Shipments, Inventory, i))
  }

  lemma AnsweredIsNotShipping(s: Sys, id: Uuid, r: Uuid)
    requires EndsOk(s) && Exchanged(s) && id in s.ship.rows && IsAnswered(s.inv.outbox, id, r)
    ensures s.ship.rows[id].status != ShippingRequested
  {
    var i: nat :| IsAnswer(s.inv.outbox, i, id, r);
    assert AnswerTaken(s, i) && Done(s, Shipments, Inventory, i);
  }

  lemma NoneShipping(s: Sys, id: Uuid)
    requires EndsOk(s) && Exchanged(s) && id in s.ship.rows
    ensures s.ship.rows[id].status != ShippingRequested
  {
    var x := s.ship.rows[id];
    assert RowEnds(s, id);
    if HasAsked(s.ship.outbox, id, x.reservation) {
      var j: nat :| IsRequest(s.ship.outbox, j, id, x.reservation);
      assert CommandTaken(s, j) && Done(s, Inventory, Shipments, j);
      AnsweredIsNotShipping(s, id, x.reservation);
    }
  }

  /** A completed reservation was asked for by its only shipment. */
  lemma CompletedBy(s: Sys, id: Uuid)
    requires SagaOk(s) && id in s.ship.rows && IsCompleted(s.inv, s.ship.rows[id].reservation)
    ensures ShippedBy(s.inv, s.ship.rows[id].reservation, id)
              && HasAsked(s.ship.outbox, id, s.ship.rows[id].reservation)
  {
    var r := s.ship.rows[id].reservation;
    assert CompletionAsked(s, r);
    var k := s.inv.bookings[r].shipment.value;
    var j: nat :| IsRequest(s.ship.outbox, j, k, r);
    RequestOf(s, j, k, r);
    assert OnePerReservation(s.ship.rows) by { UniqueRows(s); }
    hide ShipmentsOk, AnswersOk;
  }

  lemma ShippedIffCompleted(s: Sys, id: Uuid)
    requires SagaOk(s) && EndsOk(s) && TalkOk(s.inv) && Exchanged(s) && id in s.ship.rows
    ensures s.ship.rows[id].status == Shipped <==> IsCompleted(s.inv, s.ship.rows[id].reservation)
  {
    var r := s.ship.rows[id].reservation;
    assert StatusTrue(s, id) && Honoured(s.inv);
    if IsCompleted(s.inv, r) {
      CompletedBy(s, id);
      hide SagaOk, TalkOk, Honoured;
      CompletedIsAnswered(s.inv, r, id);
      var i: nat :| IsAnswer(s.inv.outbox, i, id, r) && s.inv.outbox[i].StockShipped?;
      assert AnswerTaken(s, i) && Done(s, Shipments, Inventory, i);
    }
  }

  lemma RecalledIsOver(s: Sys, id: Uuid)
    requires EndsOk(s) && Exchanged(s) && id in s.ship.rows && s.ship.rows[id].status == CancelPending
    ensures IsClosed(s.inv, s.ship.rows[id].reservation) && WasConfirmed(s.inv, s.ship.rows[id].reservation)
  {
    var r := s.ship.rows[id].reservation;
    assert RowEnds(s, id);
    var k: nat :| IsRecall(s.ship.outbox, k, id, r);
    assert CommandTaken(s, k) && Done(s, Inventory, Shipments, k);
  }

  /** What the status of a shipment comes to. */
  ghost predicate SettledRow(s: Sys, id: Uuid)
    requires id in s.ship.rows
  {
    var x := s.ship.rows[id];
    && x.status != ShippingRequested
    && (x.status == Shipped <==> IsCompleted(s.inv, x.reservation))
    && (x.status == CancelPending ==>
          x.reservation in s.inv.bookings && s.inv.bookings[x.reservation].status in {Cancelled, ExpiredStatus})
  }

  lemma RowSettles(s: Sys, id: Uuid)
    requires SagaOk(s) && TalkOk(s.inv) && EndsOk(s) && Exchanged(s) && id in s.ship.rows
    ensures SettledRow(s, id)
  {
    hide EndsOk, SagaOk, TalkOk, Exchanged;
    NoneShipping(s, id);
    ShippedIffCompleted(s, id);
    if s.ship.rows[id].status == CancelPending { RecalledIsOver(s, id); }
  }

  /** In every reachable state in which all events between the two services are processed,
      no shipment is SHIPPING, exactly the shipments of completed reservations are SHIPPED,
      and the reservation of a CANCELLING one is cancelled or expired. */
  lemma ShipmentsSettle(world: map<Uuid, Site>, now: Time, steps: seq<Step>, id: Uuid)
    ensures var s := System.Run(world, Empty(world, now), steps);
            Exchanged(s) && id in s.ship.rows ==> SettledRow(s, id)
  {
    hide *;
    var s := System.Run(world, Empty(world, now), steps);
    EmptyInCourse(world, now);
    RunInCourse(world, Empty(world, now), steps);
    CourseFacts(world, s);
    if Exchanged(s) && id in s.ship.rows { RowSettles(s, id); }
  }

  // ----- one event of a kind -----

  lemma ClosedOnce(db: Db, r: Uuid, i: nat, k: nat)
    requires TalkOk(db) && IsClosing(db.outbox, i, r) && IsClosing(db.outbox, k, r)
    ensures i == k
  {
    assert Verdict(db.outbox[i]).Some? && Verdict(db.outbox[k]).Some?;
    hide Truthful, Complete;
  }

  /** The shipment service cannot hear of a second end of the reservation. */
  lemma OneClosing(s: Sys, r: Uuid, i: nat)
    requires TalkOk(s.inv) && IsClosing(s.inv.outbox, i, r) && !Done(s, Shipments, Inventory, i)
    ensures !ClosingHeard(s, r)
  {
    hide TalkOk;
    forall k: nat | IsClosing(s.inv.outbox, k, r) ensures k == i { ClosedOnce(s.inv, r, i, k); }
  }

  lemma OneRefusal(s: Sys, id: Uuid, r: Uuid, i: nat)
    requires EndsOk(s) && IsRefusal(s.inv.outbox, i, id, r) && !Done(s, Shipments, Inventory, i)
    ensures !RefusalHeard(s, id, r)
  {
    assert RefusedOnce(s.inv.outbox);
    hide EndsOk;
    forall k: nat | IsRefusal(s.inv.outbox, k, id, r) ensures k == i {}
  }

  /** A shipment whose refusal has been heard, or that never asked, is not completed. */
  ghost predicate Unanswerable(s: Sys, id: Uuid, r: Uuid) {
    HasAsked(s.ship.outbox, id, r) ==> RefusalHeard(s, id, r)
  }

  lemma NeverCompleted(s: Sys, id: Uuid)
    requires SagaOk(s) && id in s.ship.rows && Unanswerable(s, id, s.ship.rows[id].reservation)
    ensures !IsCompleted(s.inv, s.ship.rows[id].reservation)
  {
    var r := s.ship.rows[id].reservation;
    if IsCompleted(s.inv, r) {
      CompletedBy(s, id);
      var i: nat :| IsRefusal(s.inv.outbox, i, id, r) && Done(s, Shipments, Inventory, i);
      assert TurnedDown(s.inv.outbox, id, r);
      RefusedIsFinal(s, id, r);
    }
  }

  /** The refusal of a shipment follows its request. */
  lemma RefusedHasAsked(s: Sys, i: nat, id: Uuid, r: Uuid)
    requires SagaOk(s) && TalkOk(s.inv) && i < |s.inv.outbox| && s.inv.outbox[i].ShipmentRejected?
    requires s.inv.outbox[i].reservation == r
    requires id in s.ship.rows && s.ship.rows[id].reservation == r
    ensures IsRefusal(s.inv.outbox, i, id, r) && HasAsked(s.ship.outbox, id, r)
  {
    var e := s.inv.outbox[i];
    assert e in s.inv.outbox;
    EndFacts(s, e, id);
    assert RefusalFinal(s, e);
    var j: nat :| IsRequest(s.ship.outbox, j, id, r);
  }

  // ----- when FAILED and CANCELLED are left -----

  /** The delivery of an event of the inventory that the shipment service has not processed yet. */
  ghost predicate Delivers(s: Sys, a: Step, i: nat) {
    a.Deliver? && a.consumer == Shipments && a.ref == Ref(Inventory, i) && i < |s.inv.outbox|
        && !Done(s, Shipments, Inventory, i)
  }

  /** The steps that take a shipment out of FAILED or CANCELLED, and where they take it. */
  ghost predicate Leaves(s: Sys, a: Step, id: Uuid, status: ShipmentStatus)
    requires id in s.ship.rows
  {
    var x := s.ship.rows[id];
    if x.status == Failed then
      || (status == ShipmentCancelled && exists i: nat ::
          Delivers(s, a, i) && IsClosing(s.inv.outbox, i, x.reservation))
      || (status == CancelPending && a == Advance(id, S.CancelShipment))
    else
      status == Failed && exists i: nat :: Delivers(s, a, i) && IsRefusal(s.inv.outbox, i, id, x.reservation)
  }

  /** A shipment that has failed or was cancelled is not reported as shipped. */
  lemma EndedNotShipped(s: Sys, i: nat, id: Uuid)
    requires SagaOk(s) && TalkOk(s.inv) && i < |s.inv.outbox| && s.inv.outbox[i].StockShipped?
    requires id in s.ship.rows && s.ship.rows[id].status in {Failed, ShipmentCancelled}
    ensures s.inv.outbox[i].shipment != id
  {
    var e := s.inv.outbox[i];
    assert e in s.inv.outbox && StatusTrue(s, id);
    ShippedFacts(s, e);
    if e.shipment == id && s.ship.rows[id].status == Failed { FailedIsFinal(s, id); }
    hide SagaOk, TalkOk;
  }

  /** The events that may still reach a row that has ended. */
  lemma EndedMayHear(s: Sys, i: nat, id: Uuid)
    requires SagaOk(s) && TalkOk(s.inv) && EndsOk(s) && i < |s.inv.outbox| && !Done(s, Shipments, Inventory, i)
    requires id in s.ship.rows && s.ship.rows[id].status in {Failed, ShipmentCancelled}
    ensures var x, e := s.ship.rows[id], s.inv.outbox[i];
            && (e.ShipmentRejected? && e.reservation == x.reservation ==>
                IsRefusal(s.inv.outbox, i, id, x.reservation) && x.status == ShipmentCancelled)
            && (IsClosing(s.inv.outbox, i, x.reservation) ==> x.status == Failed)
  {
    var x, e := s.ship.rows[id], s.inv.outbox[i];
    assert RowEnds(s, id);
    if e.ShipmentRejected? && e.reservation == x.reservation {
      RefusedHasAsked(s, i, id, x.reservation);
      OneRefusal(s, id, x.reservation, i);
    } else if IsClosing(s.inv.outbox, i, x.reservation) {
      OneClosing(s, x.reservation, i);
    }
    hide SagaOk, TalkOk, EndsOk, RefusalHeard, ClosingHeard;
  }

  /** What a delivery does to a row that has ended. */
  ghost predicate EndsAs(s: Sys, i: nat, id: Uuid, after: S.Store)
    requires id in s.ship.rows
  {
    var x := s.ship.rows[id];
    && id in after.rows
    && (if x.status == Failed && IsClosing(s.inv.outbox, i, x.reservation)
        then after.rows[id].status == ShipmentCancelled
        else if x.status == ShipmentCancelled && IsRefusal(s.inv.outbox, i, id, x.reservation)
            then after.rows[id].status == Failed
        else after.rows[id] == x)
  }

  lemma EndedHears(s: Sys, i: nat, id: Uuid)
    requires SagaOk(s) && TalkOk(s.inv) && EndsOk(s) && i < |s.inv.outbox| && !Done(s, Shipments, Inventory, i)
    requires id in s.ship.rows && s.ship.rows[id].status in {Failed, ShipmentCancelled}
    requires S.Handle(s.ship, s.inv.outbox[i]).Ok?
    ensures EndsAs(s, i, id, S.Handle(s.ship, s.inv.outbox[i]).value)
  {
    var x, e := s.ship.rows[id], s.inv.outbox[i];
    hide SagaOk, TalkOk, EndsOk, S.Handle;
    EndedMayHear(s, i, id);
    if e.StockShipped? { EndedNotShipped(s, i, id); }
    if (e.ShipmentRejected? && e.reservation == x.reservation) || IsClosing(s.inv.outbox, i, x.reservation) {
      HandleEnds(s.ship, e, id);
    } else {
      HandleElsewhere(s.ship, e, id);
    }
  }

  lemma HandleEnds(st: S.Store, e: Event, id: Uuid)
    requires id in st.rows && (e.ShipmentRejected? || e.StockReservationCancelled? || e.ReservationExpired?)
    requires e.reservation == st.rows[id].reservation && st.rows[id].status != Shipped
    ensures S.Handle(st, e).Ok? && id in S.Handle(st, e).value.rows
    ensures S.Handle(st, e).value.rows[id].status == if e.ShipmentRejected? then Failed else ShipmentCancelled
  {
  }

  lemma HandleElsewhere(st: S.Store, e: Event, id: Uuid)
    requires S.Handle(st, e).Ok? && id in st.rows
    requires (e.StockShipped? ==> e.shipment != id)
    requires (e.ShipmentRejected? || e.StockReservationCancelled? || e.ReservationExpired? ==>
              e.reservation != st.rows[id].reservation)
    ensures id in S.Handle(st, e).value.rows && S.Handle(st, e).value.rows[id] == st.rows[id]
  {
  }

  /** Only the three operations of the shipment service touch its rows. */
  lemma ShipmentMoves(world: map<Uuid, Site>, s: Sys, a: Step)
    ensures var t := Next(world, s, a);
            match a
            case Claim(r, seen, id) => t.ship == s.ship || S.Create(s.ship, r, seen, id) == Ok(t.ship)
            case Advance(id, action) =>
              t == match S.Transition(s.ship, id, action) { case Ok(st) => s.(ship := st) case Err(_) => s }
            case Deliver(Shipments, ref, _) =>
              t == (if ref.index >= |Log(s, ref.source)| || Mark(Shipments, ref) in s.done then s
                    else match S.Handle(s.ship, Log(s, ref.source)[ref.index]) {
                      case Ok(st) => s.(ship := st, done := s.done + {Mark(Shipments, ref)})
                      case Err(_) => s
                    })
            case _ =>
              t.ship == s.ship && forall i: nat :: Done(t, Shipments, Inventory, i) <==>
                  Done(s, Shipments, Inventory, i)
    ensures var t := Next(world, s, a); !a.Deliver? ==> t.done == s.done
  {
    hide Commit, Proper, InventoryRules.Handle, Recognised, R.Create, R.Cancel, R.Handle, S.Create, S.Transition;
    hide S.Handle;
    hide P.Handle, P.Assign, W.Handle, W.SetStatus, HonestFor, P.Due;
  }

  lemma CreateKeepsRows(st: S.Store, r: Uuid, seen: Reply<R.Reservation>, id: Uuid, y: Uuid)
    requires S.Create(st, r, seen, id).Ok? && y in st.rows
    ensures var after := S.Create(st, r, seen, id).value;
              y in after.rows && after.rows[y] == st.rows[y] && id !in st.rows
    ensures S.Create(st, r, seen, id).value.outbox == st.outbox
              + [ShipmentCreated(id, seen.value.warehouse, r, seen.value.items)]
  {
  }

  /** An event of another service is none of the shipment service's business. */
  lemma OthersIgnored(s: Sys, ref: Ref)
    requires Typed(s) && ref.index < |Log(s, ref.source)| && ref.source != Inventory
    ensures S.Handle(s.ship, Log(s, ref.source)[ref.index]) == Ok(s.ship)
  {
    AgreementKept.TypedOne(s, ref.source, Log(s, ref.source)[ref.index]);
  }

  lemma TransitionOk(st: S.Store, id: Uuid, action: S.Action)
    ensures S.Transition(st, id, action).Ok? <==> id in st.rows && S.Target(st.rows[id].status, action).Some?
  {
  }

  /** The shipment service can process every event of the inventory. */
  lemma HandlesKnown(s: Sys, i: nat)
    requires SagaOk(s) && TalkOk(s.inv) && i < |s.inv.outbox|
    ensures S.Handle(s.ship, s.inv.outbox[i]).Ok?
  {
    var e := s.inv.outbox[i];
    assert e in s.inv.outbox;
    if e.StockShipped? { ShippedFacts(s, e); }
    hide SagaOk, TalkOk;
  }

  /** The row is rewritten exactly by the steps that leave its status. */
  ghost predicate LeavesInto(s: Sys, a: Step, id: Uuid, after: S.Store)
    requires id in s.ship.rows
  {
    && id in after.rows
    && (after.rows[id] != s.ship.rows[id] <==> Leaves(s, a, id, after.rows[id].status))
    && (forall status :: Leaves(s, a, id, status) ==> after.rows[id].status == status)
  }

  lemma EndedAdvances(s: Sys, id: Uuid, y: Uuid, action: S.Action, after: S.Store)
    requires id in s.ship.rows && s.ship.rows[id].status in {Failed, ShipmentCancelled}
    requires match S.Transition(s.ship, y, action) { case Ok(st) => after == st case Err(_) => after == s.ship }
    ensures LeavesInto(s, Advance(y, action), id, after)
  {
    TransitionOk(s.ship, y, action);
    if S.Transition(s.ship, y, action).Ok? { AdvanceIs(s.ship, y, action); }
    hide S.Transition;
  }

  /** A step that is neither an action nor the first delivery of an event to the shipment service. */
  predicate IsElsewhere(s: Sys, a: Step) {
    && !a.Advance?
    && !(a.Deliver? && a.consumer == Shipments && a.ref.source == Inventory && a.ref.index < |s.inv.outbox|
        && Mark(Shipments, a.ref) !in s.done)
  }

  lemma StaysPut(s: Sys, a: Step, id: Uuid, after: S.Store)
    requires id in s.ship.rows && id in after.rows && after.rows[id] == s.ship.rows[id] && IsElsewhere(s, a)
    ensures LeavesInto(s, a, id, after)
  {
    hide IsClosing, IsRefusal;
  }

  lemma EndedHearsInventory(s: Sys, a: Step, i: nat, id: Uuid, after: S.Store)
    requires Delivers(s, a, i) && id in s.ship.rows && s.ship.rows[id].status in {Failed, ShipmentCancelled}
    requires EndsAs(s, i, id, after)
    ensures LeavesInto(s, a, id, after)
  {
    assert forall k: nat :: Delivers(s, a, k) ==> k == i;
    hide IsClosing, IsRefusal;
  }

  /** The delivery of an event of the inventory. */
  lemma EndedDelivered(s: Sys, a: Step, i: nat, id: Uuid, after: S.Store)
    requires SagaOk(s) && TalkOk(s.inv) && EndsOk(s) && Delivers(s, a, i)
    requires id in s.ship.rows && s.ship.rows[id].status in {Failed, ShipmentCancelled}
    requires match S.Handle(s.ship, s.inv.outbox[i]) { case Ok(st) => after == st case Err(_) => after == s.ship }
    ensures LeavesInto(s, a, id, after)
  {
    hide SagaOk, TalkOk, EndsOk, S.Handle, EndsAs, LeavesInto;
    HandlesKnown(s, i);
    EndedHears(s, i, id);
    EndedHearsInventory(s, a, i, id, after);
  }

  /** Any other step leaves the row alone. */
  lemma ElsewhereStays(world: map<Uuid, Site>, s: Sys, a: Step, id: Uuid)
    requires Typed(s) && IsElsewhere(s, a) && id in s.ship.rows
    ensures id in Next(world, s, a).ship.rows && Next(world, s, a).ship.rows[id] == s.ship.rows[id]
  {
    ShipmentMoves(world, s, a);
    hide Next, S.Create, S.Handle, S.Transition, Typed;
    match a
    case Claim(r, seen, newId) =>
      if S.Create(s.ship, r, seen, newId).Ok? { CreateKeepsRows(s.ship, r, seen, newId, id); }
    case Deliver(Shipments, ref, _) =>
      if ref.index < |Log(s, ref.source)| && Mark(Shipments, ref) !in s.done { OthersIgnored(s, ref); }
    case _ =>
  }

  lemma DeliveryMoves(world: map<Uuid, Site>, s: Sys, a: Step, i: nat)
    requires Delivers(s, a, i)
    ensures var after := Next(world, s, a).ship;
            match S.Handle(s.ship, s.inv.outbox[i]) { case Ok(st) => after == st case Err(_) => after == s.ship }
  {
    ShipmentMoves(world, s, a);
    hide Next, S.Handle;
  }

  /** In every reachable state, FAILED and CANCELLED rows are rewritten by exactly these
      steps: the end of the reservation, processed after the refusal, makes a FAILED
      shipment CANCELLED; the refusal, processed after the end, makes a CANCELLED one
      FAILED; and a client may cancel a FAILED one. Nothing else touches the row. */
  lemma EndedRowMoves(world: map<Uuid, Site>, s: Sys, a: Step, id: Uuid)
    requires InCourse(world, s) && id in s.ship.rows && s.ship.rows[id].status in {Failed, ShipmentCancelled}
    ensures LeavesInto(s, a, id, Next(world, s, a).ship)
  {
    hide *;
    CourseFacts(world, s);
    var after := Next(world, s, a).ship;
    if a.Advance? {
      AdvanceMoves(world, s, a);
      EndedAdvances(s, id, a.shipment, a.action, after);
    } else if IsElsewhere(s, a) {
      ElsewhereStays(world, s, a, id);
      StaysPut(s, a, id, after);
    } else {
      IsDelivery(s, a);
      DeliveryMoves(world, s, a, a.ref.index);
      EndedDelivered(s, a, a.ref.index, id, after);
    }
  }

  lemma IsDelivery(s: Sys, a: Step)
    requires !a.Advance? && !IsElsewhere(s, a)
    ensures a.Deliver? && Delivers(s, a, a.ref.index)
  {
  }

  lemma AdvanceMoves(world: map<Uuid, Site>, s: Sys, a: Step)
    requires a.Advance?
    ensures var after := Next(world, s, a).ship;
            match S.Transition(s.ship, a.shipment, a.action) {
              case Ok(st) => after == st
              case Err(_) => after == s.ship
            }
  {
    hide S.Transition;
  }

  /** Over every run. */
  lemma WhenEndsAreLeft(world: map<Uuid, Site>, now: Time, steps: seq<Step>, a: Step, id: Uuid)
    ensures var s := System.Run(world, Empty(world, now), steps);
            id in s.ship.rows && s.ship.rows[id].status in {Failed, ShipmentCancelled} ==>
              LeavesInto(s, a, id, Next(world, s, a).ship)
  {
    EmptyInCourse(world, now);
    RunInCourse(world, Empty(world, now), steps);
    var s := System.Run(world, Empty(world, now), steps);
    hide InCourse, System.Run, Next, LeavesInto;
    if id in s.ship.rows && s.ship.rows[id].status in {Failed, ShipmentCancelled} { EndedRowMoves(world, s, a, id); }
  }

  // ----- what becomes of a cancellation -----

  /** The shipment waits for the end of its reservation, or has heard of it; `late` when it
      had heard of it before it cancelled. */
  ghost predicate Awaits(s: Sys, id: Uuid, r: Uuid, late: bool) {
    && id in s.ship.rows && s.ship.rows[id].reservation == r
    && Unanswerable(s, id, r)
    && (late ==> ClosingHeard(s, r))
    && s.ship.rows[id].status == if late || !ClosingHeard(s, r) then CancelPending else ShipmentCancelled
  }

  /** The row is as it was, it has asked for nothing and heard nothing new. */
  lemma AwaitsStill(s: Sys, t: Sys, id: Uuid, r: Uuid, late: bool)
    requires Awaits(s, id, r, late) && MarksReal(s) && s.inv.outbox <= t.inv.outbox && s.done <= t.done
    requires id in t.ship.rows && t.ship.rows[id] == s.ship.rows[id]
    requires HasAsked(t.ship.outbox, id, r) ==> HasAsked(s.ship.outbox, id, r)
    requires forall i: nat | Done(t, Shipments, Inventory, i) && !Done(s, Shipments, Inventory, i) ::
               i < |s.inv.outbox| && !IsClosing(s.inv.outbox, i, r)
    ensures Awaits(t, id, r, late)
  {
    HeardStays(s, t, id, r);
    if ClosingHeard(t, r) {
      var i: nat :| IsClosing(t.inv.outbox, i, r) && Done(t, Shipments, Inventory, i);
      assert i < |s.inv.outbox| && IsClosing(s.inv.outbox, i, r) by {
        if Done(s, Shipments, Inventory, i) { RealMark(s, i); }
      }
      assert ClosingHeard(s, r);
    }
    hide HasAsked, RefusalHeard, MarksReal;
  }

  lemma RealMark(s: Sys, i: nat)
    requires MarksReal(s) && Done(s, Shipments, Inventory, i)
    ensures i < |s.inv.outbox|
  {
  }

  lemma AwaitsAdvance(s: Sys, id: Uuid, r: Uuid, late: bool, y: Uuid, action: S.Action, t: Sys)
    requires Awaits(s, id, r, late) && MarksReal(s)
    requires S.Transition(s.ship, y, action).Ok? && t == s.(ship := S.Transition(s.ship, y, action).value)
    ensures Awaits(t, id, r, late)
  {
    AdvanceIs(s.ship, y, action);
    hide S.Transition, ClosingHeard, RefusalHeard, HasAsked, MarksReal;
    var x := s.ship.rows[y];
    SentIs(s.ship.outbox, x, y, action, S.Target(x.status, action).value, id, r);
    AwaitsStill(s, t, id, r, late);
  }

  /** The end of the reservation reaches the shipment, for the first time. */
  lemma AwaitsClosing(s: Sys, id: Uuid, r: Uuid, late: bool, i: nat, t: Sys)
    requires TalkOk(s.inv) && Awaits(s, id, r, late) && IsClosing(s.inv.outbox, i, r)
    requires !Done(s, Shipments, Inventory, i)
    requires var o := S.Handle(s.ship, s.inv.outbox[i]);
             o.Ok? && t == s.(ship := o.value, done := s.done + {Mark(Shipments, Ref(Inventory, i))})
    ensures Awaits(t, id, r, late)
  {
    OneClosing(s, r, i);
    HeardStays(s, t, id, r);
    assert IsClosing(t.inv.outbox, i, r) && Done(t, Shipments, Inventory, i);
    hide TalkOk, HasAsked, RefusalHeard;
  }

  /** No other event of the inventory is about the shipment any more. */
  lemma AwaitsNothingElse(s: Sys, id: Uuid, r: Uuid, late: bool, i: nat)
    requires SagaOk(s) && TalkOk(s.inv) && EndsOk(s) && Awaits(s, id, r, late)
    requires i < |s.inv.outbox| && !Done(s, Shipments, Inventory, i)
    ensures var e := s.inv.outbox[i];
            && (e.StockShipped? ==> e.shipment != id)
            && (e.ShipmentRejected? ==> e.reservation != r)
  {
    var e := s.inv.outbox[i];
    assert e in s.inv.outbox;
    if e.StockShipped? {
      ShippedFacts(s, e);
      if e.shipment == id { NeverCompleted(s, id); }
    } else if e.ShipmentRejected? && e.reservation == r {
      RefusedHasAsked(s, i, id, r);
      OneRefusal(s, id, r, i);
    }
    hide SagaOk, TalkOk, EndsOk, HasAsked, RefusalHeard, ClosingHeard;
  }

  /** What the shipment may still hear. */
  lemma AwaitsHears(s: Sys, id: Uuid, r: Uuid, late: bool, i: nat, t: Sys)
    requires SagaOk(s) && TalkOk(s.inv) && EndsOk(s) && MarksReal(s) && Awaits(s, id, r, late)
    requires i < |s.inv.outbox| && !Done(s, Shipments, Inventory, i)
    requires var o := S.Handle(s.ship, s.inv.outbox[i]);
             o.Ok? && t == s.(ship := o.value, done := s.done + {Mark(Shipments, Ref(Inventory, i))})
    ensures Awaits(t, id, r, late)
  {
    hide SagaOk, TalkOk, EndsOk, MarksReal, Awaits, HasAsked, S.Handle;
    AwaitsRow(s, id, r, late);
    if IsClosing(s.inv.outbox, i, r) {
      AwaitsClosing(s, id, r, late, i, t);
    } else {
      AwaitsNothingElse(s, id, r, late, i);
      HandleElsewhere(s.ship, s.inv.outbox[i], id);
      HandleSendsNoRequest(s.ship, s.inv.outbox[i], id, r);
      AwaitsStill(s, t, id, r, late);
    }
  }

  /** Processing an event asks for nothing. */
  lemma HandleSendsNoRequest(st: S.Store, e: Event, id: Uuid, r: Uuid)
    requires S.Handle(st, e).Ok?
    ensures HasAsked(S.Handle(st, e).value.outbox, id, r) ==> HasAsked(st.outbox, id, r)
    ensures st.outbox <= S.Handle(st, e).value.outbox
  {
    var log := S.Handle(st, e).value.outbox;
    if HasAsked(log, id, r) {
      var j: nat :| IsRequest(log, j, id, r);
      assert IsRequest(st.outbox, j, id, r);
    }
  }

  lemma CreatedAsksNothing(log: seq<Event>, e: Event, id: Uuid, r: Uuid)
    requires e.ShipmentCreated?
    ensures HasAsked(log + [e], id, r) ==> HasAsked(log, id, r)
  {
    if HasAsked(log + [e], id, r) {
      var j: nat :| IsRequest(log + [e], j, id, r);
      assert IsRequest(log, j, id, r);
    }
  }

  /** A delivery to the shipment service. */
  lemma AwaitsDelivered(s: Sys, id: Uuid, r: Uuid, late: bool, ref: Ref, t: Sys)
    requires SagaOk(s) && TalkOk(s.inv) && EndsOk(s) && MarksReal(s) && Typed(s) && Awaits(s, id, r, late)
    requires ref.index < |Log(s, ref.source)| && Mark(Shipments, ref) !in s.done
    requires t == match S.Handle(s.ship, Log(s, ref.source)[ref.index]) {
                    case Ok(st) => s.(ship := st, done := s.done + {Mark(Shipments, ref)})
                    case Err(_) => s
                  }
    ensures Awaits(t, id, r, late)
  {
    hide SagaOk, TalkOk, EndsOk, MarksReal, Typed, Awaits, HasAsked, S.Handle;
    if ref.source == Inventory {
      HandlesKnown(s, ref.index);
      AwaitsHears(s, id, r, late, ref.index, t);
    } else {
      OthersIgnored(s, ref);
      AwaitsRow(s, id, r, late);
      AwaitsStill(s, t, id, r, late);
    }
  }

  lemma AwaitsClaim(s: Sys, id: Uuid, r: Uuid, late: bool, x: Uuid, seen: Reply<R.Reservation>, newId: Uuid, t: Sys)
    requires MarksReal(s) && Awaits(s, id, r, late) && t == s.(ship := t.ship)
    requires t.ship == s.ship || S.Create(s.ship, x, seen, newId) == Ok(t.ship)
    ensures Awaits(t, id, r, late)
  {
    AwaitsRow(s, id, r, late);
    hide MarksReal, Awaits, HasAsked, S.Create;
    if t.ship != s.ship {
      CreateKeepsRows(s.ship, x, seen, newId, id);
      CreatedAsksNothing(s.ship.outbox, ShipmentCreated(newId, seen.value.warehouse, x, seen.value.items), id, r);
    }
    AwaitsStill(s, t, id, r, late);
  }

  lemma StepGrows(world: map<Uuid, Site>, s: Sys, a: Step)
    requires InCourse(world, s)
    ensures var t := Next(world, s, a); s.inv.outbox <= t.inv.outbox && s.done <= t.done
  {
    assert Good(world, s);
    hide InCourse, Good, Sound, Agree, Next, Grows;
    AgreeNext(world, s, a) by { GoodFacts(world, s); }
    NextMarks(world, s, a);
    GrownLog(s.inv, Next(world, s, a).inv);
  }

  lemma GoodFacts(world: map<Uuid, Site>, s: Sys)
    requires Good(world, s)
    ensures Sound(world, s.inv) && Agree(s)
  {
  }

  lemma AwaitsNext(world: map<Uuid, Site>, s: Sys, a: Step, id: Uuid, r: Uuid, late: bool)
    requires InCourse(world, s) && Awaits(s, id, r, late)
    ensures Awaits(Next(world, s, a), id, r, late)
  {
    var t := Next(world, s, a);
    CourseFacts(world, s);
    hide InCourse, SagaOk, TalkOk, EndsOk, MarksReal, Agree, StockOk, ShipmentsOk, AnswersOk, LookupsOk, Honoured;
    hide Typed, Next;
    hide Awaits, HasAsked, S.Create, S.Transition, S.Handle;
    StepGrows(world, s, a);
    ShipmentMoves(world, s, a);
    AwaitsRow(s, id, r, late);
    match a
    case Claim(x, seen, newId) => AwaitsClaim(s, id, r, late, x, seen, newId, t);
    case Advance(y, action) =>
      if S.Transition(s.ship, y, action).Ok? { AwaitsAdvance(s, id, r, late, y, action, t); }
    case Deliver(Shipments, ref, _) =>
      if ref.index < |Log(s, ref.source)| && Mark(Shipments, ref) !in s.done {
        AwaitsDelivered(s, id, r, late, ref, t);
      }
    case _ => AwaitsStill(s, t, id, r, late);
  }

  lemma AwaitsRow(s: Sys, id: Uuid, r: Uuid, late: bool)
    requires Awaits(s, id, r, late)
    ensures id in s.ship.rows && s.ship.rows[id].reservation == r
  {
  }

  lemma {:induction false} RunAwaits(world: map<Uuid, Site>, s: Sys, steps: seq<Step>, id: Uuid, r: Uuid, late: bool)
    requires InCourse(world, s) && Awaits(s, id, r, late)
    ensures InCourse(world, System.Run(world, s, steps)) && Awaits(System.Run(world, s, steps), id, r, late)
    decreases |steps|
  {
    hide Next, InCourse, Awaits;
    if steps != [] {
      AwaitsNext(world, s, steps[0], id, r, late);
      CourseGoesOn(world, s, steps[0]);
      RunAwaits(world, Next(world, s, steps[0]), steps[1..], id, r, late);
    }
  }

  /** The shipment has just been cancelled. */
  lemma AwaitsAfterCancel(s: Sys, t: Sys, id: Uuid)
    requires id in t.ship.rows && RowEnds(t, id) && t.ship.rows[id].status == CancelPending && t.inv == s.inv
    requires t.done == s.done
    ensures Awaits(t, id, t.ship.rows[id].reservation, ClosingHeard(s, t.ship.rows[id].reservation))
  {
    hide HasAsked, RefusalHeard, HasRecalled;
  }

  lemma CancelMoves(world: map<Uuid, Site>, s: Sys, id: Uuid)
    requires S.Transition(s.ship, id, S.CancelShipment).Ok? && id in s.ship.rows
    ensures var t := Next(world, s, Advance(id, S.CancelShipment));
            && t.inv == s.inv && t.done == s.done
            && id in t.ship.rows && t.ship.rows[id] == s.ship.rows[id].(status := CancelPending)
  {
    AdvanceIs(s.ship, id, S.CancelShipment);
    hide S.Transition;
  }

  lemma EndsRow(s: Sys, id: Uuid)
    requires EndsOk(s) && id in s.ship.rows
    ensures RowEnds(s, id)
  {
  }

  lemma AwaitsFirst(world: map<Uuid, Site>, s: Sys, id: Uuid)
    requires InCourse(world, s) && S.Transition(s.ship, id, S.CancelShipment).Ok? && id in s.ship.rows
    ensures Awaits(Next(world, s, Advance(id, S.CancelShipment)), id, s.ship.rows[id].reservation,
              ClosingHeard(s, s.ship.rows[id].reservation))
  {
    hide *;
    var a := Advance(id, S.CancelShipment);
    var t := Next(world, s, a);
    EndsNext(world, s, a);
    CancelMoves(world, s, id);
    EndsRow(t, id);
    AwaitsAfterCancel(s, t, id);
  }

  /** When everything is processed, the shipment has heard of the end of its reservation. */
  lemma ClosingIsHeard(s: Sys, id: Uuid, r: Uuid)
    requires SagaOk(s) && TalkOk(s.inv) && EndsOk(s) && Exchanged(s) && Unanswerable(s, id, r)
    requires id in s.ship.rows && s.ship.rows[id].status == CancelPending && s.ship.rows[id].reservation == r
    ensures ClosingHeard(s, r)
  {
    hide SagaOk, EndsOk, Unanswerable;
    RecalledIsOver(s, id);
    NeverCompleted(s, id);
    assert Said(s.inv.outbox, r, s.inv.bookings[r].status);
    var i: nat :| i < |s.inv.outbox| && Verdict(s.inv.outbox[i]) == Some((r, s.inv.bookings[r].status));
    assert IsClosing(s.inv.outbox, i, r) && Done(s, Shipments, Inventory, i);
  }

  lemma AwaitsNoMore(s: Sys, id: Uuid, r: Uuid, late: bool)
    requires SagaOk(s) && TalkOk(s.inv) && EndsOk(s) && Exchanged(s) && Awaits(s, id, r, late)
    ensures s.ship.rows[id].status == if late then CancelPending else ShipmentCancelled
  {
    if s.ship.rows[id].status == CancelPending { ClosingIsHeard(s, id, r); }
    hide SagaOk, TalkOk, EndsOk, Exchanged, Unanswerable, ClosingHeard;
  }

  /** A client cancels a shipment, and later, whatever happens in between, all events
      between shipment service and inventory are processed. Then the shipment is still
      CANCELLING if and only if the shipment service had processed the end of its
      reservation before it accepted the cancellation; otherwise it is CANCELLED. */
  lemma WhatBecomesOfACancellation(world: map<Uuid, Site>, now: Time, steps: seq<Step>, id: Uuid, more: seq<Step>)
    ensures var s := System.Run(world, Empty(world, now), steps);
            var u := System.Run(world, Next(world, s, Advance(id, S.CancelShipment)), more);
            S.Transition(s.ship, id, S.CancelShipment).Ok? && Exchanged(u) ==>
              && id in s.ship.rows && id in u.ship.rows
              && u.ship.rows[id].status == if ClosingHeard(s, s.ship.rows[id].reservation) then CancelPending
                  else ShipmentCancelled
  {
    EmptyInCourse(world, now);
    RunInCourse(world, Empty(world, now), steps);
    var s := System.Run(world, Empty(world, now), steps);
    var a := Advance(id, S.CancelShipment);
    if S.Transition(s.ship, id, S.CancelShipment).Ok? {
      TransitionOk(s.ship, id, S.CancelShipment);
      hide System.Run, Next, InCourse, Awaits, ClosingHeard, S.Transition, Exchanged;
      var r := s.ship.rows[id].reservation;
      AwaitsFirst(world, s, id);
      CourseGoesOn(world, s, a);
      RunAwaits(world, Next(world, s, a), more, id, r, ClosingHeard(s, r));
      var u := System.Run(world, Next(world, s, a), more);
      AwaitsRow(u, id, r, ClosingHeard(s, r));
      CourseFacts(world, u);
      hide SagaOk, TalkOk, EndsOk, Agree;
      if Exchanged(u) { AwaitsNoMore(u, id, r, ClosingHeard(s, r)); }
    }
  }

  // ----- what becomes of a claim -----

  /** The shipment was claimed for the reservation; `late` when the shipment service had
      heard of the end of the reservation before. While it is being prepared it has heard
      of no other end. */
  ghost predicate Prepares(s: Sys, id: Uuid, r: Uuid, late: bool) {
    && id in s.ship.rows && s.ship.rows[id].reservation == r
    && (late ==> ClosingHeard(s, r))
    && (Unsent(s.ship.rows[id].status) && !late ==> !ClosingHeard(s, r))
  }

  /** A shipment that is still being prepared was so before, and has heard no end. */
  ghost predicate HearsNoEnd(s: Sys, t: Sys, id: Uuid, r: Uuid)
    requires id in s.ship.rows && id in t.ship.rows
  {
    Unsent(t.ship.rows[id].status) ==>
      && Unsent(s.ship.rows[id].status)
      && forall i: nat | Done(t, Shipments, Inventory, i) && !Done(s, Shipments, Inventory, i) ::
           i < |s.inv.outbox| && !IsClosing(s.inv.outbox, i, r)
  }

  lemma PreparesStill(s: Sys, t: Sys, id: Uuid, r: Uuid, late: bool)
    requires Prepares(s, id, r, late) && MarksReal(s) && s.inv.outbox <= t.inv.outbox && s.done <= t.done
    requires id in t.ship.rows && t.ship.rows[id].reservation == r && HearsNoEnd(s, t, id, r)
    ensures Prepares(t, id, r, late)
  {
    HeardStays(s, t, id, r);
    if Unsent(t.ship.rows[id].status) && ClosingHeard(t, r) {
      var i: nat :| IsClosing(t.inv.outbox, i, r) && Done(t, Shipments, Inventory, i);
      if Done(s, Shipments, Inventory, i) { RealMark(s, i); }
      assert i < |s.inv.outbox| && IsClosing(s.inv.outbox, i, r);
    }
    hide RefusalHeard, MarksReal;
  }

  /** Processing an event leads no shipment back into preparation. */
  lemma HandleEndsPreparation(st: S.Store, e: Event, id: Uuid)
    requires S.Handle(st, e).Ok? && id in st.rows
    ensures var after := S.Handle(st, e).value;
            && id in after.rows && after.rows[id].reservation == st.rows[id].reservation
            && (Unsent(after.rows[id].status) ==> after.rows[id] == st.rows[id])
            && (e.StockReservationCancelled? || e.ReservationExpired? ==>
                  e.reservation == st.rows[id].reservation ==> !Unsent(after.rows[id].status))
  {
  }

  lemma PreparesDelivered(s: Sys, id: Uuid, r: Uuid, late: bool, ref: Ref, t: Sys)
    requires MarksReal(s) && Typed(s) && Prepares(s, id, r, late)
    requires ref.index < |Log(s, ref.source)| && Mark(Shipments, ref) !in s.done
    requires t == match S.Handle(s.ship, Log(s, ref.source)[ref.index]) {
                    case Ok(st) => s.(ship := st, done := s.done + {Mark(Shipments, ref)})
                    case Err(_) => s
                  }
    ensures Prepares(t, id, r, late)
  {
    var e := Log(s, ref.source)[ref.index];
    if S.Handle(s.ship, e).Ok? {
      HandleEndsPreparation(s.ship, e, id);
      hide S.Handle, MarksReal, Typed, ClosingHeard;
      PreparesStill(s, t, id, r, late);
    }
  }

  lemma PreparesAdvance(s: Sys, id: Uuid, r: Uuid, late: bool, y: Uuid, action: S.Action, t: Sys)
    requires MarksReal(s) && Prepares(s, id, r, late) && t == s.(ship := t.ship)
    requires S.Transition(s.ship, y, action) == Ok(t.ship)
    ensures Prepares(t, id, r, late)
  {
    AdvanceIs(s.ship, y, action);
    hide S.Transition, MarksReal, ClosingHeard;
    PreparesStill(s, t, id, r, late);
  }

  lemma PreparesNext(world: map<Uuid, Site>, s: Sys, a: Step, id: Uuid, r: Uuid, late: bool)
    requires InCourse(world, s) && Prepares(s, id, r, late)
    ensures Prepares(Next(world, s, a), id, r, late)
  {
    var t := Next(world, s, a);
    CourseFacts(world, s);
    StepGrows(world, s, a);
    ShipmentMoves(world, s, a);
    hide InCourse, SagaOk, TalkOk, EndsOk, MarksReal, Agree, StockOk, ShipmentsOk, AnswersOk, LookupsOk, Honoured;
    hide Typed, Next;
    hide Prepares, ClosingHeard, S.Create, S.Transition, S.Handle;
    PreparesRow(s, id, r, late);
    match a
    case Claim(x, seen, newId) =>
      if t.ship != s.ship { CreateKeepsRows(s.ship, x, seen, newId, id); }
      PreparesStill(s, t, id, r, late);
    case Advance(y, action) =>
      if S.Transition(s.ship, y, action).Ok? { PreparesAdvance(s, id, r, late, y, action, t); }
    case Deliver(Shipments, ref, _) =>
      if ref.index < |Log(s, ref.source)| && Mark(Shipments, ref) !in s.done {
        PreparesDelivered(s, id, r, late, ref, t);
      }
    case _ => PreparesStill(s, t, id, r, late);
  }

  lemma {:induction false} RunPrepares(world: map<Uuid, Site>, s: Sys, steps: seq<Step>, id: Uuid, r: Uuid, late: bool)
    requires InCourse(world, s) && Prepares(s, id, r, late)
    ensures InCourse(world, System.Run(world, s, steps)) && Prepares(System.Run(world, s, steps), id, r, late)
    decreases |steps|
  {
    hide Next, InCourse, Prepares;
    if steps != [] {
      PreparesNext(world, s, steps[0], id, r, late);
      CourseGoesOn(world, s, steps[0]);
      RunPrepares(world, Next(world, s, steps[0]), steps[1..], id, r, late);
    }
  }

  /** A reservation whose end is in the log is not confirmed. */
  lemma EndedNotConfirmed(s: Sys, r: Uuid)
    requires TalkOk(s.inv) && ClosingHeard(s, r)
    ensures !IsConfirmed(s.inv.bookings, r)
  {
    var i: nat :| IsClosing(s.inv.outbox, i, r) && Done(s, Shipments, Inventory, i);
    assert Verdict(s.inv.outbox[i]).Some?;
    hide Complete, Orderly;
  }

  /** When everything is processed, the end of a reservation that is no longer confirmed has been heard. */
  lemma EndIsHeard(s: Sys, id: Uuid)
    requires SagaOk(s) && TalkOk(s.inv) && EndsOk(s) && Exchanged(s) && id in s.ship.rows
    requires s.ship.rows[id].status != Shipped && !IsConfirmed(s.inv.bookings, s.ship.rows[id].reservation)
    ensures ClosingHeard(s, s.ship.rows[id].reservation)
  {
    hide SagaOk, EndsOk;
    EndsRow(s, id);
    ShippedIffCompleted(s, id);
    hide RowEnds, HasAsked, HasRecalled, RefusalHeard;
    LogEnds(s.inv, s.ship.rows[id].reservation) by { assert RowEnds(s, id); RowWasConfirmed(s, id); }
    var i: nat :| IsClosing(s.inv.outbox, i, s.ship.rows[id].reservation);
    assert Done(s, Shipments, Inventory, i);
  }

  lemma RowWasConfirmed(s: Sys, id: Uuid)
    requires id in s.ship.rows && RowEnds(s, id)
    ensures WasConfirmed(s.inv, s.ship.rows[id].reservation)
  {
  }

  /** The end of a reservation that was confirmed, is no longer, and was not shipped stands in the log. */
  lemma LogEnds(db: Db, r: Uuid)
    requires TalkOk(db) && WasConfirmed(db, r) && !IsConfirmed(db.bookings, r) && !IsCompleted(db, r)
    ensures exists i: nat :: IsClosing(db.outbox, i, r)
  {
    assert Said(db.outbox, r, db.bookings[r].status);
    hide TalkOk;
    var i: nat :| i < |db.outbox| && Verdict(db.outbox[i]) == Some((r, db.bookings[r].status));
    assert IsClosing(db.outbox, i, r);
  }

  lemma ClaimMoves(world: map<Uuid, Site>, s: Sys, r: Uuid, seen: Reply<R.Reservation>, newId: Uuid)
    requires Recognised(s, r, seen) && S.Create(s.ship, r, seen, newId).Ok?
    ensures var t := Next(world, s, Claim(r, seen, newId));
            && t.inv == s.inv && t.done == s.done
            && newId in t.ship.rows && t.ship.rows[newId].reservation == r
  {
    hide Recognised, S.Claimed;
  }

  lemma PreparesFirst(s: Sys, t: Sys, id: Uuid, r: Uuid)
    requires id in t.ship.rows && t.ship.rows[id].reservation == r && t.inv == s.inv && t.done == s.done
    ensures Prepares(t, id, r, ClosingHeard(s, r))
  {
  }

  lemma PreparesNoMore(s: Sys, id: Uuid, r: Uuid, late: bool)
    requires SagaOk(s) && TalkOk(s.inv) && EndsOk(s) && Exchanged(s) && Prepares(s, id, r, late)
    ensures Unsent(s.ship.rows[id].status) ==> (IsConfirmed(s.inv.bookings, r) <==> !late)
  {
    hide SagaOk, TalkOk, EndsOk, Exchanged, ClosingHeard;
    if late { EndedNotConfirmed(s, r); }
    if Unsent(s.ship.rows[id].status) && !IsConfirmed(s.inv.bookings, r) { EndIsHeard(s, id); }
  }

  /** A shipment is claimed for a reservation, and later, whatever happens in between, all
      events between shipment service and inventory are processed. If it is still being
      prepared, its reservation is confirmed if and only if the shipment service had not
      processed the end of the reservation before it accepted the claim. */
  lemma WhatBecomesOfAClaim(world: map<Uuid, Site>, now: Time, steps: seq<Step>, r: Uuid,
                            seen: Reply<R.Reservation>, newId: Uuid, more: seq<Step>)
    ensures var s := System.Run(world, Empty(world, now), steps);
            var u := System.Run(world, Next(world, s, Claim(r, seen, newId)), more);
            Recognised(s, r, seen) && S.Create(s.ship, r, seen, newId).Ok? && Exchanged(u) ==>
              && newId in u.ship.rows
              && (Unsent(u.ship.rows[newId].status) ==> (IsConfirmed(u.inv.bookings, r) <==> !ClosingHeard(s, r)))
  {
    hide *;
    EmptyInCourse(world, now);
    RunInCourse(world, Empty(world, now), steps);
    var s := System.Run(world, Empty(world, now), steps);
    var a := Claim(r, seen, newId);
    if Recognised(s, r, seen) && S.Create(s.ship, r, seen, newId).Ok? {
      var t := Next(world, s, a);
      var late := ClosingHeard(s, r);
      ClaimMoves(world, s, r, seen, newId);
      PreparesFirst(s, t, newId, r);
      CourseGoesOn(world, s, a);
      RunPrepares(world, t, more, newId, r, late);
      var u := System.Run(world, t, more);
      PreparesRow(u, newId, r, late);
      CourseFacts(world, u);
      if Exchanged(u) { PreparesNoMore(u, newId, r, late); }
    }
  }

  lemma PreparesRow(s: Sys, id: Uuid, r: Uuid, late: bool)
    requires Prepares(s, id, r, late)
    ensures id in s.ship.rows && s.ship.rows[id].reservation == r
  {
  }
}
