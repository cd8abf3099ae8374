/** Shipment saga safety over every run: what SHIPPED, CANCELLED and FAILED mean at the
    inventory service, whatever the scheduler does. */
module SagaRuns {
  import opened Domain
  import opened Events
  import opened InventoryRules
  import opened StockInvariant
  import opened InventorySafety
  import opened Effects
  import opened Talk
  import opened System
  import opened Fulfilment
  import opened Agreement
  import opened AgreementRuns
  import opened Saga
  import opened SagaKept
  import AgreementKept
  import EventLog
  import R = ReservationRules
  import S = ShipmentRules
  import P = PlacementRules
  import W = OccupancyRules

  // ----- the shipment service moves -----

  /** A transition changes one row and appends its own events. */
  ghost predicate Transitioned(s: Sys, id: Uuid, status: ShipmentStatus, sent: seq<Event>, t: Sys) {
    && id in s.ship.rows
    && t == s.(ship := S.Store(s.ship.rows[id := s.ship.rows[id].(status := status)], s.ship.outbox + sent))
    && !(Unsent(status) && !Unsent(s.ship.rows[id].status))
    && status !in {Shipped, ShipmentCancelled, Failed} && s.ship.rows[id].status != Shipped
    && |sent| <= 2
    && (forall e | e in sent ::
          && !e.ShipmentCompleted?
          && (e.ShipmentRequested? ==>
              e == ShipmentRequested(id, s.ship.rows[id].warehouse, s.ship.rows[id].reservation)
                                       && Unsent(s.ship.rows[id].status) && !Unsent(status) && sent[0] == e)
          && (e.ReservationCancellationRequested? ==>
                e.reservation == s.ship.rows[id].reservation && e.warehouse == s.ship.rows[id].warehouse))
    && (|sent| == 2 ==> !sent[1].ShipmentRequested?)
  }

  lemma TransitionIs(s: Sys, id: Uuid, action: S.Action, t: Sys)
    requires S.Transition(s.ship, id, action).Ok? && t == s.(ship := S.Transition(s.ship, id, action).value)
    ensures exists status, sent :: Transitioned(s, id, status, sent, t)
  {
    var x := s.ship.rows[id];
    var status := S.Target(x.status, action).value;
    var changed := ShipmentStatusChanged(id, x.warehouse, status);
    var sent := match action
      case ShipOut => [ShipmentRequested(id, x.warehouse, x.reservation), changed]
      case CancelShipment => [ReservationCancellationRequested(x.reservation, x.warehouse, Some(id)), changed]
      case _ => [changed];
    assert t.ship.outbox == s.ship.outbox + sent;
    assert Transitioned(s, id, status, sent, t);
  }

  lemma TransitionRows(s: Sys, id: Uuid, status: ShipmentStatus, sent: seq<Event>, t: Sys)
    requires ShipmentsOk(s) && Transitioned(s, id, status, sent, t)
    ensures OnePerReservation(t.ship.rows)
    ensures forall x | x in t.ship.rows :: RowKnown(t, x) && StatusTrue(t, x)
  {
    forall x | x in t.ship.rows
      ensures RowKnown(t, x) && StatusTrue(t, x)
    {
      assert RowKnown(s, x) && StatusTrue(s, x);
      if s.ship.rows[x].status == Shipped { ReportedGrows(s.ship.outbox, t.ship.outbox, x); }
    }
  }

  lemma TransitionSent(s: Sys, id: Uuid, status: ShipmentStatus, sent: seq<Event>, t: Sys)
    requires ShipmentsOk(s) && Transitioned(s, id, status, sent, t)
    ensures forall e | e in t.ship.outbox :: SentTrue(t, e)
  {
    assert RowKnown(s, id);
    forall e | e in t.ship.outbox
      ensures SentTrue(t, e)
    {
      if e in s.ship.outbox { assert SentTrue(s, e); } else { assert e in sent; }
    }
  }

  lemma TransitionOnce(s: Sys, id: Uuid, status: ShipmentStatus, sent: seq<Event>, t: Sys)
    requires ShipmentsOk(s) && Transitioned(s, id, status, sent, t)
    ensures SentOnce(t.ship.outbox)
  {
    var n := |s.ship.outbox|;
    forall i, k | 0 <= i < k < |t.ship.outbox|
      ensures !SameSubject(t.ship.outbox[i], t.ship.outbox[k])
    {
      if k >= n {
        assert t.ship.outbox[k] == sent[k - n] && sent[k - n] in sent;
        if i < n {
          assert t.ship.outbox[i] == s.ship.outbox[i] && s.ship.outbox[i] in s.ship.outbox;
          assert SentTrue(s, s.ship.outbox[i]);
        }
      } else {
        assert !SameSubject(s.ship.outbox[i], s.ship.outbox[k]);
      }
    }
  }

  lemma AfterTransition(s: Sys, id: Uuid, action: S.Action, t: Sys)
    requires SagaOk(s)
    requires S.Transition(s.ship, id, action).Ok? && t == s.(ship := S.Transition(s.ship, id, action).value)
    ensures SagaOk(t)
  {
    TransitionIs(s, id, action, t);
    hide ShipmentsOk, AnswersOk, S.Transition, Transitioned;
    var status, sent :| Transitioned(s, id, status, sent, t);
    assert s.ship.outbox <= t.ship.outbox && t.inv == s.inv && t.done == s.done by {
      TransitionFrame(s, id, status, sent, t);
    }
    AnswersStay(s, t);
    TransitionRows(s, id, status, sent, t);
    TransitionSent(s, id, status, sent, t);
    TransitionOnce(s, id, status, sent, t);
  }

  lemma TransitionFrame(s: Sys, id: Uuid, status: ShipmentStatus, sent: seq<Event>, t: Sys)
    requires Transitioned(s, id, status, sent, t)
    ensures s.ship.outbox <= t.ship.outbox && t.inv == s.inv && t.done == s.done && t.resv == s.resv
  {
  }

  // ----- the shipment service consumes an event -----

  /** The shipment that a completion event names is the one that asked for it. */
  lemma ShippedFacts(s: Sys, e: Event)
    requires TalkOk(s.inv) && SagaOk(s) && e in s.inv.outbox && e.StockShipped?
    ensures ShippedBy(s.inv, e.reservation, e.shipment)
    ensures e.shipment in s.ship.rows && s.ship.rows[e.shipment].reservation == e.reservation
    ensures !Unsent(s.ship.rows[e.shipment].status)
  {
    var i :| 0 <= i < |s.inv.outbox| && s.inv.outbox[i] == e;
    assert Verdict(s.inv.outbox[i]) == Some((e.reservation, Completed));
    assert EventHonoured(s.inv, e);
    hide TalkOk, EventHonoured, Honoured, ShipmentsOk;
    assert CompletionAsked(s, e.reservation);
    var j: nat :| IsRequest(s.ship.outbox, j, e.shipment, e.reservation);
    RequestOf(s, j, e.shipment, e.reservation);
  }

  lemma AfterShipped(s: Sys, e: Event, t: Sys)
    requires TalkOk(s.inv) && SagaOk(s) && e in s.inv.outbox && e.StockShipped?
    requires S.Handle(s.ship, e).Ok? && t == s.(ship := S.Handle(s.ship, e).value)
    ensures SagaOk(t)
  {
    hide TalkOk, AnswersOk;
    ShippedFacts(s, e);
    AnswersStay(s, t);
    if t != s {
      var n := |s.ship.outbox|;
      assert t.ship.outbox[n].ShipmentCompleted? && t.ship.outbox[n].shipment == e.shipment;
      forall x | x in t.ship.rows
        ensures RowKnown(t, x) && StatusTrue(t, x)
      {
        assert RowKnown(s, x) && StatusTrue(s, x);
        if s.ship.rows[x].status == Shipped { ReportedGrows(s.ship.outbox, t.ship.outbox, x); }
      }
      forall a | a in t.ship.outbox
        ensures SentTrue(t, a)
      {
        if a in s.ship.outbox { assert SentTrue(s, a); }
      }
      forall i | 0 <= i < n
        ensures !SameSubject(t.ship.outbox[i], t.ship.outbox[n])
      {
        assert t.ship.outbox[i] in s.ship.outbox;
        assert SentTrue(s, t.ship.outbox[i]);
      }
    }
  }

  /** A refusal that reaches a shipment was meant for it; a closed reservation is closed. */
  lemma EndFacts(s: Sys, e: Event, id: Uuid)
    requires e.ShipmentRejected? || e.StockReservationCancelled? || e.ReservationExpired?
    requires TalkOk(s.inv) && SagaOk(s) && e in s.inv.outbox && id in s.ship.rows
    requires s.ship.rows[id].reservation == e.reservation
    ensures e.ShipmentRejected? ==> e.shipment == id && TurnedDown(s.inv.outbox, id, e.reservation)
    ensures !e.ShipmentRejected? ==>
              e.reservation in s.inv.bookings && s.inv.bookings[e.reservation].status in {Cancelled, ExpiredStatus}
  {
    hide Honoured;
    var i :| 0 <= i < |s.inv.outbox| && s.inv.outbox[i] == e;
    if e.ShipmentRejected? {
      hide TalkOk, ShipmentsOk;
      assert OnePerReservation(s.ship.rows) by { assert ShipmentsOk(s); UniqueRows(s); }
      assert RefusalFinal(s, e);
      var j: nat :| IsRequest(s.ship.outbox, j, e.shipment, e.reservation);
      RequestOf(s, j, e.shipment, e.reservation);
    } else {
      assert Verdict(s.inv.outbox[i]).Some?;
    }
  }

  lemma UniqueRows(s: Sys)
    requires ShipmentsOk(s)
    ensures OnePerReservation(s.ship.rows)
  {
  }

  lemma EndRow(s: Sys, e: Event, t: Sys, x: Uuid)
    requires e.ShipmentRejected? || e.StockReservationCancelled? || e.ReservationExpired?
    requires x in s.ship.rows && RowKnown(s, x) && StatusTrue(s, x)
    requires t == s.(ship := s.ship.(rows := S.EndAll(s.ship.rows, e)))
    requires s.ship.rows[x].reservation == e.reservation ==>
               && (e.ShipmentRejected? ==> TurnedDown(s.inv.outbox, x, e.reservation))
               && (!e.ShipmentRejected? ==>
                     e.reservation in s.inv.bookings
                         && s.inv.bookings[e.reservation].status in {Cancelled, ExpiredStatus})
    ensures x in t.ship.rows && RowKnown(t, x) && StatusTrue(t, x)
  {
    hide TurnedDown, Reported;
  }

  /** Ending shipments changes neither whose they are nor which of them have asked to be shipped. */
  lemma EndFrame(s: Sys, e: Event, t: Sys)
    requires e.ShipmentRejected? || e.StockReservationCancelled? || e.ReservationExpired?
    requires t == s.(ship := s.ship.(rows := S.EndAll(s.ship.rows, e))) && ShipmentsOk(s)
    ensures OnePerReservation(t.ship.rows)
    ensures forall a | a in t.ship.outbox :: SentTrue(t, a)
  {
    hide RowKnown, StatusTrue;
    forall a | a in t.ship.outbox ensures SentTrue(t, a) { assert SentTrue(s, a); }
  }

  lemma AfterEnd(s: Sys, e: Event, t: Sys)
    requires TalkOk(s.inv) && SagaOk(s) && e in s.inv.outbox
    requires e.ShipmentRejected? || e.StockReservationCancelled? || e.ReservationExpired?
    requires t == s.(ship := s.ship.(rows := S.EndAll(s.ship.rows, e)))
    ensures SagaOk(t)
  {
    hide TalkOk, AnswersOk, RowKnown, StatusTrue, SentTrue, TurnedDown;
    AnswersStay(s, t);
    EndFrame(s, e, t);
    forall x | x in t.ship.rows
      ensures RowKnown(t, x) && StatusTrue(t, x)
    {
      assert x in s.ship.rows;
      if s.ship.rows[x].reservation == e.reservation { EndFacts(s, e, x); }
      EndRow(s, e, t, x);
    }
  }

  /** More markers change nothing. */
  lemma MoreMarks(s: Sys, t: Sys)
    requires SagaOk(s) && t.inv == s.inv && t.ship == s.ship && t.resv == s.resv && s.done <= t.done
    ensures SagaOk(t)
  {
    AfterReservations(s, t);
  }

  lemma AfterShipmentNews(s: Sys, ref: Ref, t: Sys)
    requires Agree(s) && SagaOk(s) && ref.index < |Log(s, ref.source)|
    requires var o := S.Handle(s.ship, Log(s, ref.source)[ref.index]);
             o.Ok? && t == s.(ship := o.value, done := s.done + {Mark(Shipments, ref)})
    ensures SagaOk(t)
  {
    var e := Log(s, ref.source)[ref.index];
    assert Typed(s) && TalkOk(s.inv);
    AgreementKept.TypedOne(s, ref.source, e);
    hide Agree, SagaOk, Typed, TalkOk;
    var u := s.(ship := t.ship);
    if e.StockShipped? {
      AfterShipped(s, e, u);
    } else if e.ShipmentRejected? || e.StockReservationCancelled? || e.ReservationExpired? {
      AfterEnd(s, e, u);
    } else {
      assert u == s;
    }
    MoreMarks(u, t);
  }

  // ----- the inventory consumes a shipment request -----

  lemma FreshFor(s: Sys, ref: Ref, t: Sys)
    requires Typed(s) && ref.index < |Log(s, ref.source)| && Mark(Inventory, ref) !in s.done
    requires var e := Log(s, ref.source)[ref.index]; e.ShipmentRequested? && t.done == s.done + {Mark(Inventory, ref)}
    ensures var e := Log(s, ref.source)[ref.index]; FreshRequest(s, t, ref.index, e.shipment, e.reservation)
  {
    AgreementKept.TypedOne(s, ref.source, Log(s, ref.source)[ref.index]);
  }

  /** A completed shipment request completes its own reservation and refuses nothing. */
  lemma RequestCompleted(s: Sys, j: nat, id: Uuid, r: Uuid, a: Event, t: Sys)
    requires FreshRequest(s, t, j, id, r) && Announced(s.inv, t.inv, r, a)
    requires t.inv.bookings[r].shipment == Some(id)
    requires t == s.(inv := t.inv, done := t.done) && s.done <= t.done && Grows(s.inv, t.inv) && Honoured(t.inv)
    ensures SagaMoved(s, t)
  {
    hide Grows, Honoured;
    forall i | |s.inv.outbox| <= i < |t.inv.outbox|
      ensures !t.inv.outbox[i].ShipmentRejected?
    {
      if i < |t.inv.outbox| - 1 { assert Silent(t.inv.outbox[..|t.inv.outbox| - 1][i]); }
    }
  }

  lemma RequestRefused(s: Sys, j: nat, id: Uuid, r: Uuid, t: Sys)
    requires FreshRequest(s, t, j, id, r) && Declined(s.inv, t.inv, r, id) && !ShippedBy(s.inv, r, id)
    requires t == s.(inv := t.inv, done := t.done) && s.done <= t.done && Grows(s.inv, t.inv) && Honoured(t.inv)
    ensures SagaMoved(s, t)
  {
    hide Grows, Honoured;
  }

  lemma RequestRepeated(s: Sys, t: Sys)
    requires t == s.(inv := t.inv, done := t.done) && s.done <= t.done && Grows(s.inv, t.inv) && Honoured(t.inv)
    requires CompletesNothing(s.inv, t.inv)
    ensures SagaMoved(s, t)
  {
    hide Grows, Honoured;
  }

  lemma ShipmentRequestMoves(s: Sys, ref: Ref, reply: Reply<Location>, t: Sys)
    requires Typed(s) && StockOk(s.inv) && ref.index < |Log(s, ref.source)| && Mark(Inventory, ref) !in s.done
    requires var e := Log(s, ref.source)[ref.index];
             && e.ShipmentRequested?
             && var o := InventoryRules.Handle(s.inv, s.now, e, reply);
                o.Ok? && t == s.(inv := o.value, done := s.done + {Mark(Inventory, ref)})
    requires Honoured(t.inv)
    ensures SagaMoved(s, t)
  {
    hide StockOk, InventoryRules.Handle, Honoured, Grows, Announced, Declined, FreshRequest, SagaMoved;
    hide CompletesNothing;
    var e := Log(s, ref.source)[ref.index];
    ShipmentEffect(s.inv, s.now, e, reply);
    FreshFor(s, ref, t);
    if t.inv == s.inv {
      NothingCompletes(s.inv);
      RequestRepeated(s, t);
    } else if ShippedBy(t.inv, e.reservation, e.shipment) && exists a :: Announced(s.inv, t.inv, e.reservation, a) {
      var a :| Announced(s.inv, t.inv, e.reservation, a);
      RequestCompleted(s, ref.index, e.shipment, e.reservation, a, t);
    } else {
      RequestRefused(s, ref.index, e.shipment, e.reservation, t);
    }
  }

  // ----- one step -----

  lemma AfterDelivered(world: map<Uuid, Site>, s: Sys, consumer: Service, ref: Ref, reply: Reply<Location>)
    requires Agree(s) && SagaOk(s) && StockOk(s.inv)
    ensures SagaOk(DeliverTo(world, s, consumer, ref, reply))
  {
    assert Typed(s) && TalkOk(s.inv) && Honoured(s.inv);
    hide Agree, SagaOk, StockOk, TalkOk, Typed, Honoured, Grows, SagaMoved, HonestFor;
    hide InventoryRules.Handle, S.Handle, P.Handle, W.Handle, R.Handle;
    var t := DeliverTo(world, s, consumer, ref, reply);
    if t != s {
      var e := Log(s, ref.source)[ref.index];
      match consumer
      case Inventory =>
        AfterConsumed(s, ref, reply, t);
      case Reservations =>
        FactsStay(s.resv, s.now, R.Input(0, [], None), 0, e);
        AfterReservations(s, t);
      case Shipments => AfterShipmentNews(s, ref, t);
      case Placements => MoreMarks(s, t);
      case Warehouses => MoreMarks(s, t);
    }
  }

  lemma AfterConsumed(s: Sys, ref: Ref, reply: Reply<Location>, t: Sys)
    requires Typed(s) && TalkOk(s.inv) && Honoured(s.inv) && SagaOk(s) && StockOk(s.inv)
    requires ref.index < |Log(s, ref.source)| && Mark(Inventory, ref) !in s.done
    requires var o := InventoryRules.Handle(s.inv, s.now, Log(s, ref.source)[ref.index], reply);
             o.Ok? && t == s.(inv := o.value, done := s.done + {Mark(Inventory, ref)})
    ensures SagaOk(t)
  {
    hide SagaOk, StockOk, TalkOk, Typed, Honoured, Grows, SagaMoved, InventoryRules.Handle, CompletesNothing;
    var tr := Consuming(s.now, Log(s, ref.source)[ref.index], reply);
    assert Commit(s.inv, tr) == t.inv;
    TransactionHonours(s.inv, tr);
    TransactionEffect(s.inv, tr);
    if Log(s, ref.source)[ref.index].ShipmentRequested? {
      ShipmentRequestMoves(s, ref, reply, t);
    } else {
      OnlyRequestsComplete(s.inv, tr);
      RequestRepeated(s, t);
    }
    AfterInventory(s, t);
  }

  lemma AfterCommitted(s: Sys, tr: Transaction, t: Sys)
    requires SagaOk(s) && StockOk(s.inv) && TalkOk(s.inv) && Honoured(s.inv) && !tr.Consuming?
    requires t == s.(inv := Commit(s.inv, tr))
    ensures SagaOk(t)
  {
    hide SagaOk, StockOk, TalkOk, Honoured, Grows, SagaMoved, Commit, CompletesNothing;
    TransactionHonours(s.inv, tr);
    TransactionEffect(s.inv, tr);
    OnlyRequestsComplete(s.inv, tr);
    RequestRepeated(s, t);
    AfterInventory(s, t);
  }

  lemma AfterClaimed(s: Sys, r: Uuid, seen: Reply<R.Reservation>, id: Uuid, t: Sys)
    requires SagaOk(s) && LookupsOk(s) && Recognised(s, r, seen)
    requires var o := S.Create(s.ship, r, seen, id); o.Ok? && t == s.(ship := o.value)
    ensures SagaOk(t)
  {
    AfterClaim(s, r, seen, id, t);
    hide ShipmentsOk, AnswersOk, S.Claimed;
    AnswersStay(s, t);
  }

  /** Every step keeps the saga in order. */
  lemma SagaNext(world: map<Uuid, Site>, s: Sys, a: Step)
    requires Good(world, s) && SagaOk(s) && LookupsOk(s)
    ensures SagaOk(Next(world, s, a))
  {
    assert StockOk(s.inv) && TalkOk(s.inv) && Honoured(s.inv) && Agree(s);
    hide Good, Agree, SagaOk, LookupsOk, StockOk, TalkOk, Honoured, Commit, HonestFor, DeliverTo, FactsKept;
    hide R.Create, R.Cancel, S.Create, S.Transition, P.Assign, W.SetStatus, Proper, P.Due, Recognised;
    var t := Next(world, s, a);
    match a
    case Command(tr) =>
      ProperCommand(world, s, tr);
      if t != s { AfterCommitted(s, tr, t); }
    case Expire(r) => if t != s { AfterCommitted(s, Expiring(r), t); }
    case Deliver(consumer, ref, reply) => AfterDelivered(world, s, consumer, ref, reply);
    case Book(q, id) => FactsStay(s.resv, s.now, q, id, ShipmentStatusChanged(0, 0, Reserved));
        if t != s { AfterReservations(s, t); }
    case Cancel(r) => FactsStay(s.resv, s.now, R.Input(0, [], None), r, ShipmentStatusChanged(0, 0, Reserved));
        if t != s { AfterReservations(s, t); }
    case Claim(r, seen, id) => if t != s { AfterClaimed(s, r, seen, id, t); }
    case Advance(id, action) => if t != s { AfterTransition(s, id, action, t); }
    case _ => MoreMarks(s, t);
  }

  // ----- every run -----

  ghost predicate InOrder(world: map<Uuid, Site>, s: Sys) {
    Good(world, s) && SagaOk(s) && LookupsOk(s)
  }

  lemma FactsNext(world: map<Uuid, Site>, s: Sys, a: Step)
    ensures var t := Next(world, s, a);
            && FactsKept(s.resv, t.resv)
            && t.answers
                == (if a.Lookup? && a.reservation in s.resv.rows
                then s.answers + {(a.reservation, s.resv.rows[a.reservation])} else s.answers)
  {
    hide Commit, HonestFor, R.Create, R.Cancel, S.Create, S.Transition, P.Assign, W.SetStatus, Proper, P.Due;
    hide Recognised;
    hide InventoryRules.Handle, R.Handle, S.Handle, P.Handle, W.Handle, FactsKept;
    FactsSame(s.resv);
    match a
    case Book(q, id) => FactsStay(s.resv, s.now, q, id, ShipmentStatusChanged(0, 0, Reserved));
    case Cancel(r) => FactsStay(s.resv, s.now, R.Input(0, [], None), r, ShipmentStatusChanged(0, 0, Reserved));
    case Deliver(_, ref, _) =>
      if ref.index < |Log(s, ref.source)| {
        FactsStay(s.resv, s.now, R.Input(0, [], None), 0, Log(s, ref.source)[ref.index]);
      }
    case _ =>
  }

  lemma FactsSame(st: R.Store)
    ensures FactsKept(st, st)
  {
  }

  /** Every step keeps what lookups have shown. */
  lemma LookupsNext(world: map<Uuid, Site>, s: Sys, a: Step)
    requires Good(world, s) && LookupsOk(s)
    ensures LookupsOk(Next(world, s, a))
  {
    var t := Next(world, s, a);
    assert Heard(s);
    AgreeNext(world, s, a);
    FactsNext(world, s, a);
    hide Good, Sound, Agree, Next, Grows, FactsKept, LookupsOk;
    if a.Lookup? && a.reservation in s.resv.rows { LookupShows(world, s, a.reservation); }
    AnswersStayTrue(s, t);
  }

  lemma LookupShows(world: map<Uuid, Site>, s: Sys, r: Uuid)
    requires Heard(s) && r in s.resv.rows
    ensures AnswerTrue(Next(world, s, Lookup(r)), (r, s.resv.rows[r]))
  {
    assert LifeTrue(s, r);
  }

  lemma {:induction false} RunIsSaga(world: map<Uuid, Site>, s: Sys, steps: seq<Step>)
    requires InOrder(world, s)
    ensures InOrder(world, System.Run(world, s, steps))
    decreases |steps|
  {
    hide Next, Good, SagaOk, LookupsOk;
    if steps != [] {
      SagaNext(world, s, steps[0]);
      GoodNext(world, s, steps[0]);
      LookupsNext(world, s, steps[0]);
      RunIsSaga(world, Next(world, s, steps[0]), steps[1..]);
    }
  }

  lemma EmptyInOrder(world: map<Uuid, Site>, now: Time)
    ensures InOrder(world, Empty(world, now))
  {
    EmptyAgrees(world, now);
    hide Good;
  }

  // ----- the theorems -----

  ghost predicate ShipmentSafe(s: Sys, id: Uuid)
    requires id in s.ship.rows
  {
    var x := s.ship.rows[id];
    && (x.status == Shipped ==>
          && ShippedBy(s.inv, x.reservation, id)
          && DeductedOnce(s.inv.outbox, x.reservation, id, x.items)
          && EventLog.LotsLogged(s.inv))
    && (x.status == ShipmentCancelled ==>
          x.reservation in s.inv.bookings && s.inv.bookings[x.reservation].status in {Cancelled, ExpiredStatus})
    && (x.status == Failed ==> !IsCompleted(s.inv, x.reservation))
  }

  /** In every reachable state: SHIPPED means completed by exactly this shipment, with
      every requested unit deducted in exactly one event of the log that replays to the
      lots; CANCELLED means cancelled or expired; FAILED means not completed. */
  lemma ShipmentsSafe(world: map<Uuid, Site>, now: Time, steps: seq<Step>, id: Uuid)
    ensures var s := System.Run(world, Empty(world, now), steps); id in s.ship.rows ==> ShipmentSafe(s, id)
  {
    hide InOrder, System.Run, ShipmentSafe;
    var s := System.Run(world, Empty(world, now), steps);
    EmptyInOrder(world, now);
    RunIsSaga(world, Empty(world, now), steps);
    if id in s.ship.rows { InOrderIsSafe(world, s, id); }
  }

  lemma InOrderIsSafe(world: map<Uuid, Site>, s: Sys, id: Uuid)
    requires InOrder(world, s) && id in s.ship.rows
    ensures ShipmentSafe(s, id)
  {
    InOrderFacts(world, s, id);
    hide InOrder, SagaOk, Agree, DeductedOnce, EventLog.LotsLogged;
    if s.ship.rows[id].status == Shipped { ShippedIsDeducted(s, id); }
    if s.ship.rows[id].status == Failed { FailedIsFinal(s, id); }
  }

  lemma InOrderFacts(world: map<Uuid, Site>, s: Sys, id: Uuid)
    requires InOrder(world, s) && id in s.ship.rows
    ensures Agree(s) && SagaOk(s) && StatusTrue(s, id) && EventLog.LotsLogged(s.inv) && SentOnce(s.ship.outbox)
  {
    hide Agree, AnswersOk, StockOk;
  }

  /** A shipment that has failed at any time ships nothing: its reservation is not
      completed then and never will be. */
  lemma FailedForEver(world: map<Uuid, Site>, now: Time, steps: seq<Step>, more: seq<Step>, id: Uuid)
    ensures var s := System.Run(world, Empty(world, now), steps);
            id in s.ship.rows && s.ship.rows[id].status == Failed ==>
              !IsCompleted(System.Run(world, s, more).inv, s.ship.rows[id].reservation)
  {
    var s := System.Run(world, Empty(world, now), steps);
    if id in s.ship.rows && s.ship.rows[id].status == Failed {
      hide Next, Agree, Sound, Grows, SagaOk;
      EmptyInOrder(world, now);
      RunIsSaga(world, Empty(world, now), steps);
      InOrderFacts(world, s, id);
      RunIsSaga(world, s, more);
      RunAgrees(world, s, more);
      var t := System.Run(world, s, more);
      assert s.inv.outbox <= t.inv.outbox by { GrownLog(s.inv, t.inv); }
      RefusedGrows(s.inv.outbox, t.inv.outbox, id, s.ship.rows[id].reservation);
      assert AnswersOk(t) by { assert SagaOk(t); SagaAnswers(t); }
      RefusedIsFinal(t, id, s.ship.rows[id].reservation);
    }
  }

  lemma GrownLog(db: Db, after: Db)
    requires Grows(db, after)
    ensures db.outbox <= after.outbox
  {
  }

  lemma SagaAnswers(s: Sys)
    requires SagaOk(s)
    ensures AnswersOk(s)
  {
  }

  /** A shipped row never changes again. */
  ghost predicate ShippedStay(a: S.Store, b: S.Store) {
    forall id | id in a.rows && a.rows[id].status == Shipped :: id in b.rows && b.rows[id] == a.rows[id]
  }

  lemma NextKeepsShipped(world: map<Uuid, Site>, s: Sys, a: Step)
    ensures ShippedStay(s.ship, Next(world, s, a).ship)
  {
    hide Commit, HonestFor, R.Create, R.Cancel, P.Assign, W.SetStatus, Proper, P.Due, Recognised;
    hide InventoryRules.Handle, R.Handle, P.Handle, W.Handle, S.Claimed;
  }

  lemma {:induction false} ShippedIsAbsorbing(world: map<Uuid, Site>, s: Sys, steps: seq<Step>)
    ensures ShippedStay(s.ship, System.Run(world, s, steps).ship)
    decreases |steps|
  {
    hide Next;
    if steps != [] {
      NextKeepsShipped(world, s, steps[0]);
      ShippedIsAbsorbing(world, Next(world, s, steps[0]), steps[1..]);
    }
  }

  /** A shipment is reported as completed at most once, and exactly when it is shipped. */
  lemma CompletedAtMostOnce(world: map<Uuid, Site>, now: Time, steps: seq<Step>, id: Uuid)
    ensures var s := System.Run(world, Empty(world, now), steps);
            && (Reported(s.ship.outbox, id) <==> id in s.ship.rows && s.ship.rows[id].status == Shipped)
            && forall i, k | 0 <= i < k < |s.ship.outbox| && s.ship.outbox[i].ShipmentCompleted?
                && s.ship.outbox[k].ShipmentCompleted? ::
                 s.ship.outbox[i].shipment != s.ship.outbox[k].shipment
  {
    var s := System.Run(world, Empty(world, now), steps);
    EmptyInOrder(world, now);
    RunIsSaga(world, Empty(world, now), steps);
    assert ShipmentsOk(s);
    hide InOrder, System.Run, AnswersOk, ShippedBy, RowKnown, TurnedDown;
    if Reported(s.ship.outbox, id) {
      var i :| 0 <= i < |s.ship.outbox| && s.ship.outbox[i].ShipmentCompleted? && s.ship.outbox[i].shipment == id;
      assert SentTrue(s, s.ship.outbox[i]);
    }
    if id in s.ship.rows && s.ship.rows[id].status == Shipped { assert StatusTrue(s, id); }
    forall i, k | 0 <= i < k < |s.ship.outbox| && s.ship.outbox[i].ShipmentCompleted?
        && s.ship.outbox[k].ShipmentCompleted?
      ensures s.ship.outbox[i].shipment != s.ship.outbox[k].shipment
    {
      assert !SameSubject(s.ship.outbox[i], s.ship.outbox[k]);
    }
  }

  predicate AboutBooking(s: Sys, source: Service, j: nat) {
    && j < |Log(s, source)|
    && var e := Log(s, source)[j];
       && (e.ReservationRequested? || e.ReservationCancellationRequested? || e.ShipmentRequested?)
       && e.reservation in s.inv.bookings
  }

  /** Every command about a reservation that the inventory knows carries the warehouse of
      that reservation, although releasing never compares the two. */
  lemma CommandsNameTheWarehouse(world: map<Uuid, Site>, now: Time, steps: seq<Step>, source: Service, j: nat)
    ensures var s := System.Run(world, Empty(world, now), steps);
            AboutBooking(s, source, j) ==>
              Log(s, source)[j].warehouse == s.inv.bookings[Log(s, source)[j].reservation].warehouse
  {
    hide InOrder, System.Run;
    var s := System.Run(world, Empty(world, now), steps);
    EmptyInOrder(world, now);
    RunIsSaga(world, Empty(world, now), steps);
    if AboutBooking(s, source, j) { NamesTheWarehouse(world, s, source, j); }
  }

  lemma NamesTheWarehouse(world: map<Uuid, Site>, s: Sys, source: Service, j: nat)
    requires InOrder(world, s) && AboutBooking(s, source, j)
    ensures Log(s, source)[j].warehouse == s.inv.bookings[Log(s, source)[j].reservation].warehouse
  {
    var e := Log(s, source)[j];
    hide Sound, AnswersOk, TalkOk, StatusTrue;
    assert e in Log(s, source);
    AgreementKept.TypedOne(s, source, e);
    assert BookingKnown(s, e.reservation);
    if source == Shipments {
      assert SentTrue(s, e);
      assert e.ShipmentRequested? ==> RowKnown(s, e.shipment);
    } else {
      assert RequestTrue(s, j);
    }
  }
}
