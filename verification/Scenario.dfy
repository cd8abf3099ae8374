/** One run of the system, step by step: a shipment asks to be shipped while its reservation
    expires. The order in which the shipment service hears of the expiry and of the refusal
    decides whether it ends FAILED or CANCELLED, and cancelling it afterwards leaves it
    CANCELLING although every event has been processed. */
module Scenario {
  import opened Domain
  import opened Events
  import opened InventoryRules
  import opened System
  import Agreement
  import EndingRuns
  import R = ReservationRules
  import S = ShipmentRules

  // ----- a small warehouse -----

  const UNIT := Load(1.0, 1.0)
  const SHELF := Site(0, Load(10.0, 10.0), Normal, Storage)
  const WORLD: map<Uuid, Site> := map[0 := SHELF]
  const LINES := [Line(0, 1)]

  const LOT := Lot(0, 0, None, 1, 0, "batch", None, 0, UNIT, Normal)
  const SHELVED := LOT.(location := Some(0))
  const ASKED := R.Reservation(0, LINES, R.Pending, 1, None)
  const GRANTED := ASKED.(life := R.Known(Confirmed))
  const PARCEL := S.Shipment(0, 0, Reserved, LINES, None)

  // ----- the steps, and the state after each of them -----

  function State0(): Sys {
    Empty(WORLD, 0)
  }

  const RECEIVE :=
      Command(Transaction.Receiving(0, Receipt(0, 0, 1, "batch", None), Found(Product(UNIT, Normal, true)),
      Found(true), 0))

  function State1(): Sys {
    State0().(inv := EMPTY.(lots := map[0 := LOT], outbox := [GoodsReceived(0, 0, 0, 1, UNIT, Normal)]))
  }

  const SHELVE := Command(Changing(0, Move, Change(0, 0, 1, ""), Found(Location(SHELF, Available)), 1))

  function DbStocked(): Db {
    State1().inv.(
      lots := map[0 := LOT.(quantity := 0), 1 := SHELVED],
      ledger := map[0 := Capacity(0, UNIT, 1)],
      outbox := State1().inv.outbox + [LocationCapacityChanged(0, 0, UNIT, 1), StockMoved(0, 1, 0, 0, 1, None, 0)])
  }

  function State2(): Sys {
    State1().(inv := DbStocked())
  }

  const BOOK := Book(R.Input(0, LINES, Some(1)), 0)

  function State3(): Sys {
    State2().(resv := R.Store(map[0 := ASKED], [ReservationRequested(0, 0, LINES, 1)]))
  }

  const DECIDE := Deliver(Inventory, Ref(Reservations, 0), NoAnswer)

  function DbReserved(): Db {
    DbStocked().(
      lots := map[0 := LOT.(quantity := 0), 1 := SHELVED.(reserved := 1)],
      allocs := [Alloc(0, 1, 1)],
      bookings := map[0 := Booking(0, Confirmed, 1, None)],
      outbox := DbStocked().outbox + [StockReserved(0, 0, LINES, 1)])
  }

  function State4(): Sys {
    State3().(inv := DbReserved(), done := {Mark(Inventory, Ref(Reservations, 0))})
  }

  const LEARN := Deliver(Reservations, Ref(Inventory, 3), NoAnswer)

  function State5(): Sys {
    State4().(resv := State4().resv.(rows := map[0 := GRANTED]),
        done := State4().done + {Mark(Reservations, Ref(Inventory, 3))})
  }

  const LOOK := Lookup(0)

  function State6(): Sys {
    State5().(answers := {(0, GRANTED)})
  }

  const CLAIM := Claim(0, Found(GRANTED), 0)

  function State7(): Sys {
    State6().(ship := S.Store(map[0 := PARCEL], [ShipmentCreated(0, 0, 0, LINES)]))
  }

  const PICK := Advance(0, S.StartPicking)

  function State8(): Sys {
    State7().(ship := S.Store(map[0 := PARCEL.(status := PickingGoods)],
                                    State7().ship.outbox + [ShipmentStatusChanged(0, 0, PickingGoods)]))
  }

  const PACK := Advance(0, S.Pack)

  function State9(): Sys {
    State8().(ship :=
        S.Store(map[0 := PARCEL.(status := Packed)], State8().ship.outbox + [ShipmentStatusChanged(0, 0, Packed)]))
  }

  const SHIP := Advance(0, S.ShipOut)

  function State10(): Sys {
    State9().(ship := S.Store(map[0 := PARCEL.(status := ShippingRequested)],
                                     State9().ship.outbox
                                         + [ShipmentRequested(0, 0, 0),
                                         ShipmentStatusChanged(0, 0, ShippingRequested)]))
  }

  const WAIT := Tick(1)

  function State11(): Sys {
    State10().(now := 1)
  }

  const EXPIRE := Expire(0)

  function DbExpired(): Db {
    DbReserved().(
      lots := DbStocked().lots,
      bookings := map[0 := Booking(0, ExpiredStatus, 1, None)],
      outbox := DbReserved().outbox + [ReservationExpired(0, 0, [Item(0, 1, 1)])])
  }

  function State12(): Sys {
    State11().(inv := DbExpired())
  }

  const REFUSE := Deliver(Inventory, Ref(Shipments, 3), NoAnswer)

  function DbRefused(): Db {
    DbExpired().(outbox := DbExpired().outbox + [ShipmentRejected(0, 0, 0, ReservationUnavailable)])
  }

  function State13(): Sys {
    State12().(inv := DbRefused(), done := State12().done + {Mark(Inventory, Ref(Shipments, 3))})
  }

  const PATH := [RECEIVE, SHELVE, BOOK, DECIDE, LEARN, LOOK, CLAIM, PICK, PACK, SHIP, WAIT, EXPIRE, REFUSE]

  // ----- each step leads to its state -----

  lemma Receives()
    ensures Next(WORLD, State0(), RECEIVE) == State1()
  {
    assert State0().inv == EMPTY && State0().now == 0;
  }

  lemma Shelves()
    ensures Next(WORLD, State1(), SHELVE) == State2()
  {
    assert Charge(State1().inv, LOT, 0, 1, Found(Location(SHELF, Available))) ==
      Ok(State1().inv.(ledger := map[0 := Capacity(0, UNIT, 1)],
          outbox := State1().inv.outbox + [LocationCapacityChanged(0, 0, UNIT, 1)]));
    hide Charge;
  }

  lemma Books()
    ensures Next(WORLD, State2(), BOOK) == State3()
  {
  }

  lemma OneOffer()
    ensures Offers(EligibleLots(DbBooked(), 0, 0, 0)) == [Offer(1, 1)]
  {
    var m := EligibleLots(DbBooked(), 0, 0, 0);
    assert m == map[1 := SHELVED];
    assert 1 in m && FirstOf(m) == 1;
    assert m - {1} == map[];
  }

  function DbBooked(): Db {
    DbStocked().(bookings := DbReserved().bookings)
  }

  function DbTaken(): Db {
    DbBooked().(lots := DbReserved().lots, allocs := DbReserved().allocs)
  }

  lemma Takes()
    ensures Take(DbBooked(), 0, 1, 1) == Ok(DbTaken())
  {
    assert DbBooked().lots[1 := SHELVED.(reserved := 1)] == DbTaken().lots;
    assert UpdateLot(DbBooked(), 1, SHELVED.(reserved := 1)) == Ok(DbBooked().(lots := DbTaken().lots));
    assert DbBooked().allocs == [] && DbBooked().allocs + [Alloc(0, 1, 1)] == DbTaken().allocs;
    assert AddAlloc(DbBooked().(lots := DbTaken().lots), Alloc(0, 1, 1)) == Ok(DbTaken());
  }

  lemma TakesLines()
    ensures TakeLines(DbBooked(), 0, 0, 0, LINES, {}) == Ok(DbTaken())
  {
    OneOffer();
    Takes();
    hide Take, Offers, EligibleLots;
    assert [Offer(1, 1)][1..] == [] && LINES[1..] == [];
    assert TakeAll(DbTaken(), 0, [], 0) == Ok(Taking(DbTaken(), 0));
    assert TakeAll(DbBooked(), 0, [Offer(1, 1)], 1) == Ok(Taking(DbTaken(), 0));
    assert TakeLines(DbTaken(), 0, 0, 0, [], {} + {0}) == Ok(DbTaken());
    hide TakeAll;
    assert Offers(EligibleLots(DbBooked(), 0, LINES[0].product, 0)) == [Offer(1, 1)];
  }

  lemma Reserves()
    ensures Reserve(DbStocked(), 0, 0, 0, LINES, 1) == Ok(DbReserved())
  {
    TakesLines();
    assert Today(0) == 0;
    hide TakeLines;
  }

  lemma Decides()
    ensures Next(WORLD, State3(), DECIDE) == State4()
  {
    Reserves();
    hide Reserve, DbStocked, DbReserved;
  }

  lemma Learns()
    ensures Next(WORLD, State4(), LEARN) == State5()
  {
  }

  lemma Claims()
    ensures Next(WORLD, Next(WORLD, State5(), LOOK), CLAIM) == State7()
  {
    assert Next(WORLD, State5(), LOOK) == State6();
  }

  lemma Prepares()
    ensures Next(WORLD, State7(), PICK) == State8() && Next(WORLD, State8(), PACK) == State9()
              && Next(WORLD, State9(), SHIP) == State10()
  {
    hide RowsOf, GiveBack, ItemsOf;
  }

  lemma Releases()
    ensures Release(DbReserved(), 0, true) == Ok(DbExpired())
  {
    var row := Alloc(0, 1, 1);
    assert [row][..0] == [] && [row][1..] == [];
    assert RowsOf([row], 0) == [row] by { assert RowsOf([], 0) == [] && InsertRow(row, []) == [row]; }
    assert DbReserved().lots[1 := SHELVED] == DbStocked().lots;
    assert GiveBack(DbStocked().lots, []) == Ok(DbStocked().lots);
    assert GiveBack(DbReserved().lots, [row]) == Ok(DbStocked().lots);
    assert ItemsOf(DbStocked().lots, []) == [];
    assert ItemsOf(DbStocked().lots, [row]) == [Item(0, 1, 1)];
    assert DbReserved().bookings[0 := Booking(0, ExpiredStatus, 1, None)] == DbExpired().bookings;
    assert DbReserved().allocs == [row];
  }

  lemma Expires()
    ensures Next(WORLD, Next(WORLD, State10(), WAIT), EXPIRE) == State12()
  {
    assert Next(WORLD, State10(), WAIT) == State11();
    Releases();
    hide Release;
    assert State11().inv == DbReserved() && State11().now == 1;
  }

  lemma Facts12()
    ensures |State12().ship.outbox| == 5 && State12().ship.outbox[3] == ShipmentRequested(0, 0, 0)
    ensures State12().now == 1 && State12().inv == DbExpired()
              && DbExpired().bookings == map[0 := Booking(0, ExpiredStatus, 1, None)]
    ensures Mark(Inventory, Ref(Shipments, 3)) !in State12().done
  {
  }

  lemma Refuses()
    ensures Next(WORLD, State12(), REFUSE) == State13()
  {
    Facts12();
    hide State12, DbExpired;
    assert Ship(DbExpired(), 1, 0, 0, 0) == Err(Fail(ReservationUnavailable));
    hide Ship;
  }

  // ----- the run -----

  lemma {:induction false} RunMore(s: Sys, steps: seq<Step>, more: seq<Step>)
    ensures System.Run(WORLD, s, steps + more) == System.Run(WORLD, System.Run(WORLD, s, steps), more)
    decreases |more|
  {
    hide Next;
    if more == [] {
      assert steps + more == steps;
    } else {
      RunOneMore(WORLD, s, steps, more[0]);
      assert steps + more == (steps + [more[0]]) + more[1..];
      RunMore(s, steps + [more[0]], more[1..]);
    }
  }

  lemma OneFurther(k: nat)
    requires k < |PATH|
    ensures System.Run(WORLD, State0(), PATH[..k + 1]) == Next(WORLD, System.Run(WORLD, State0(), PATH[..k]), PATH[k])
  {
    hide Next;
    assert PATH[..k + 1] == PATH[..k] + [PATH[k]];
    RunOneMore(WORLD, State0(), PATH[..k], PATH[k]);
  }

  lemma PathLeads()
    ensures System.Run(WORLD, Empty(WORLD, 0), PATH) == State13()
  {
    Receives();
    Shelves();
    Books();
    Decides();
    Learns();
    Claims();
    Prepares();
    Expires();
    Refuses();
    hide Next, State1, State2, State3, State4, State5, State6, State7, State8, State9, State10, State11, State12;
    hide State13;
    assert PATH[..0] == [] && PATH[..13] == PATH;
    OneFurther(0);
    OneFurther(1);
    OneFurther(2);
    OneFurther(3);
    OneFurther(4);
    OneFurther(5);
    OneFurther(6);
    OneFurther(7);
    OneFurther(8);
    OneFurther(9);
    OneFurther(10);
    OneFurther(11);
    OneFurther(12);
  }

  // ----- which event comes last -----

  const HEAR_END := Deliver(Shipments, Ref(Inventory, 4), NoAnswer)
  const HEAR_REFUSAL := Deliver(Shipments, Ref(Inventory, 5), NoAnswer)

  const ENDED := PARCEL.(status := ShipmentCancelled, reason := Some(S.ByEvent("ReservationExpired")))
  const FAILED := PARCEL.(status := Failed, reason := Some(S.ByCode(ReservationUnavailable)))

  /** The state after the shipment service has processed one more event of the inventory. */
  function Heard(s: Sys, parcel: S.Shipment, i: nat): Sys {
    s.(ship := s.ship.(rows := map[0 := parcel]), done := s.done + {Mark(Shipments, Ref(Inventory, i))})
  }

  lemma HearsEnd(s: Sys, parcel: S.Shipment)
    requires s.inv == DbRefused() && s.ship.rows == map[0 := parcel] && parcel.reservation == 0
    requires parcel.status != Shipped
    requires Mark(Shipments, Ref(Inventory, 4)) !in s.done
    ensures Next(WORLD, s, HEAR_END) == Heard(s, parcel.(status := ShipmentCancelled, reason := ENDED.reason), 4)
  {
    assert s.inv.outbox[4] == ReservationExpired(0, 0, [Item(0, 1, 1)]);
    assert S.EndAll(s.ship.rows, s.inv.outbox[4])
        == map[0 := parcel.(status := ShipmentCancelled, reason := ENDED.reason)];
  }

  lemma HearsRefusal(s: Sys, parcel: S.Shipment)
    requires s.inv == DbRefused() && s.ship.rows == map[0 := parcel] && parcel.reservation == 0
    requires parcel.status != Shipped
    requires Mark(Shipments, Ref(Inventory, 5)) !in s.done
    ensures Next(WORLD, s, HEAR_REFUSAL) == Heard(s, parcel.(status := Failed, reason := FAILED.reason), 5)
  {
    assert s.inv.outbox[5] == ShipmentRejected(0, 0, 0, ReservationUnavailable);
    assert S.EndAll(s.ship.rows, s.inv.outbox[5]) == map[0 := parcel.(status := Failed, reason := FAILED.reason)];
  }

  const SHIPPING := PARCEL.(status := ShippingRequested)

  function EndsFailed(): Sys {
    Heard(Heard(State13(), ENDED, 4), FAILED, 5)
  }

  function EndsCancelled(): Sys {
    Heard(Heard(State13(), FAILED, 5), ENDED, 4)
  }

  lemma BothOrders()
    ensures System.Run(WORLD, State13(), [HEAR_END, HEAR_REFUSAL]) == EndsFailed()
    ensures System.Run(WORLD, State13(), [HEAR_REFUSAL, HEAR_END]) == EndsCancelled()
  {
    assert State13().inv == DbRefused() && State13().ship.rows == map[0 := SHIPPING] && State13().done == {
      Mark(Inventory, Ref(Reservations, 0)), Mark(Reservations, Ref(Inventory, 3)), Mark(Inventory, Ref(Shipments, 3))};
    hide State13, DbRefused, Next;
    HearsEnd(State13(), SHIPPING);
    HearsRefusal(Heard(State13(), ENDED, 4), ENDED);
    HearsRefusal(State13(), SHIPPING);
    HearsEnd(Heard(State13(), FAILED, 5), FAILED);
    TwoSteps(State13(), HEAR_END, HEAR_REFUSAL);
    TwoSteps(State13(), HEAR_REFUSAL, HEAR_END);
  }

  lemma TwoSteps(s: Sys, a: Step, b: Step)
    ensures System.Run(WORLD, s, [a, b]) == Next(WORLD, Next(WORLD, s, a), b)
  {
    hide Next;
    RunOneMore(WORLD, s, [a], b);
    assert [a] + [b] == [a, b] && [a][1..] == [];
  }

  /** The same events in two orders: a shipment that has ended CANCELLED becomes FAILED, and
      one that has FAILED becomes CANCELLED. */
  lemma LastEventWins()
    ensures System.Run(WORLD, Empty(WORLD, 0), PATH + [HEAR_END]).ship.rows == map[0 := ENDED]
    ensures System.Run(WORLD, Empty(WORLD, 0), PATH + [HEAR_END, HEAR_REFUSAL]).ship.rows == map[0 := FAILED]
    ensures System.Run(WORLD, Empty(WORLD, 0), PATH + [HEAR_REFUSAL]).ship.rows == map[0 := FAILED]
    ensures System.Run(WORLD, Empty(WORLD, 0), PATH + [HEAR_REFUSAL, HEAR_END]).ship.rows == map[0 := ENDED]
  {
    PathLeads();
    BothOrders();
    FirstHeard();
    hide Next, System.Run;
    RunMore(State0(), PATH, [HEAR_END]);
    RunMore(State0(), PATH, [HEAR_REFUSAL]);
    RunMore(State0(), PATH, [HEAR_END, HEAR_REFUSAL]);
    RunMore(State0(), PATH, [HEAR_REFUSAL, HEAR_END]);
  }

  lemma FirstHeard()
    ensures System.Run(WORLD, State13(), [HEAR_END]) == Heard(State13(), ENDED, 4)
    ensures System.Run(WORLD, State13(), [HEAR_REFUSAL]) == Heard(State13(), FAILED, 5)
  {
    assert State13().inv == DbRefused() && State13().ship.rows == map[0 := SHIPPING] && State13().done == {
      Mark(Inventory, Ref(Reservations, 0)), Mark(Reservations, Ref(Inventory, 3)), Mark(Inventory, Ref(Shipments, 3))};
    hide State13, DbRefused, Next;
    HearsEnd(State13(), SHIPPING);
    HearsRefusal(State13(), SHIPPING);
    assert [HEAR_END][1..] == [] && [HEAR_REFUSAL][1..] == [];
  }

  // ----- a cancellation without an answer -----

  const CANCEL := Advance(0, S.CancelShipment)
  const ANSWER := Deliver(Inventory, Ref(Shipments, 5), NoAnswer)
  const LEARN_END := Deliver(Reservations, Ref(Inventory, 4), NoAnswer)

  const WAITING := FAILED.(status := CancelPending)

  function State14(): Sys {
    EndsFailed().(ship := S.Store(map[0 := WAITING],
                                        EndsFailed().ship.outbox
                                            + [ReservationCancellationRequested(0, 0, Some(0)),
                                            ShipmentStatusChanged(0, 0, CancelPending)]))
  }

  function State15(): Sys {
    State14().(done := State14().done + {Mark(Inventory, Ref(Shipments, 5))})
  }

  function State16(): Sys {
    State15().(resv := State15().resv.(rows := map[0 := GRANTED.(life := R.Known(ExpiredStatus))]),
                      done := State15().done + {Mark(Reservations, Ref(Inventory, 4))})
  }

  lemma Cancels()
    ensures Next(WORLD, EndsFailed(), CANCEL) == State14()
  {
  }

  lemma Facts14()
    ensures State14().inv == DbRefused() && DbRefused().bookings == map[0 := Booking(0, ExpiredStatus, 1, None)]
    ensures |State14().ship.outbox| == 7 && State14().ship.outbox[5] == ReservationCancellationRequested(0, 0, Some(0))
    ensures |DbRefused().outbox| == 6 && DbRefused().outbox[4..]
              == [ReservationExpired(0, 0, [Item(0, 1, 1)]), ShipmentRejected(0, 0, 0, ReservationUnavailable)]
    ensures State14().resv.rows == map[0 := GRANTED]
    ensures State14().done == {
              Mark(Inventory, Ref(Reservations, 0)), Mark(Reservations, Ref(Inventory, 3)),
                  Mark(Inventory, Ref(Shipments, 3)),
              Mark(Shipments, Ref(Inventory, 4)), Mark(Shipments, Ref(Inventory, 5))}
  {
  }

  /** The reservation has expired, so the inventory says nothing. */
  lemma Answers()
    ensures Next(WORLD, State14(), ANSWER) == State15()
  {
    Facts14();
    hide State14, DbRefused;
    assert Release(DbRefused(), 0, false) == Ok(DbRefused());
    hide Release;
  }

  lemma LearnsEnd()
    ensures Next(WORLD, State15(), LEARN_END) == State16()
  {
    hide State14, DbRefused;
    Facts14();
    assert State15().inv.outbox[4] == DbRefused().outbox[4..][0];
  }

  /** An event that is none of the consumer's business. */
  predicate Ignored(s: Sys, a: Step) {
    && a.Deliver? && a.ref.index < |Log(s, a.ref.source)|
    && var e := Log(s, a.ref.source)[a.ref.index];
       match a.consumer
       case Inventory => !Relevant(e)
       case Reservations => R.Read(e).None?
       case Shipments => !e.StockShipped? && !e.ShipmentRejected? && !e.StockReservationCancelled?
           && !e.ReservationExpired?
       case _ => false
  }

  /** Deliveries to one consumer of events of one source. */
  function Late(consumer: Service, source: Service, events: seq<nat>): seq<Step> {
    if events == [] then []
    else [Deliver(consumer, Ref(source, events[0]), NoAnswer)] + Late(consumer, source, events[1..])
  }

  function Marks(consumer: Service, source: Service, events: seq<nat>): set<Mark> {
    set i | i in events :: Mark(consumer, Ref(source, i))
  }

  /** The state after deliveries that change nothing but the markers. */
  function Marked(s: Sys, consumer: Service, source: Service, events: seq<nat>): Sys {
    s.(done := s.done + Marks(consumer, source, events))
  }

  lemma IgnoredStep(s: Sys, a: Step)
    requires Ignored(s, a)
    ensures Next(WORLD, s, a) == s.(done := s.done + {Mark(a.consumer, a.ref)})
  {
  }

  lemma {:induction false} RunIgnored(s: Sys, consumer: Service, source: Service, events: seq<nat>)
    requires forall i | i in events :: Ignored(s, Deliver(consumer, Ref(source, i), NoAnswer))
    ensures System.Run(WORLD, s, Late(consumer, source, events)) == Marked(s, consumer, source, events)
    decreases |events|
  {
    hide Next;
    if events == [] {
      assert Marks(consumer, source, events) == {};
    } else {
      var a := Deliver(consumer, Ref(source, events[0]), NoAnswer);
      assert events[0] in events;
      IgnoredStep(s, a);
      var t := Next(WORLD, s, a);
      forall i | i in events[1..]
        ensures Ignored(t, Deliver(consumer, Ref(source, i), NoAnswer))
      {
        assert i in events;
      }
      RunIgnored(t, consumer, source, events[1..]);
      assert ([a] + Late(consumer, source, events[1..]))[1..] == Late(consumer, source, events[1..]);
      assert Marks(consumer, source, events) == {Mark(consumer, Ref(source, events[0]))}
          + Marks(consumer, source, events[1..]) by {
        assert events == [events[0]] + events[1..];
      }
    }
  }

  // ----- the events that change nothing -----

  const TO_INVENTORY: seq<nat> := [0, 1, 2, 4, 6]
  const TO_SHIPMENTS: seq<nat> := [0, 1, 2, 3]
  const TO_RESERVATIONS: seq<nat> := [0, 1, 2, 5]

  function State17(): Sys {
    Marked(State16(), Inventory, Shipments, TO_INVENTORY)
  }

  function State18(): Sys {
    Marked(State17(), Shipments, Inventory, TO_SHIPMENTS)
  }

  function LastState(): Sys {
    Marked(State18(), Reservations, Inventory, TO_RESERVATIONS)
  }

  lemma Logs()
    ensures State16().inv.outbox == [
      GoodsReceived(0, 0, 0, 1, UNIT, Normal), LocationCapacityChanged(0, 0, UNIT, 1),
          StockMoved(0, 1, 0, 0, 1, None, 0),
      StockReserved(0, 0, LINES, 1), ReservationExpired(0, 0, [Item(0, 1, 1)]),
          ShipmentRejected(0, 0, 0, ReservationUnavailable)]
    ensures State16().ship.outbox == [
      ShipmentCreated(0, 0, 0, LINES), ShipmentStatusChanged(0, 0, PickingGoods), ShipmentStatusChanged(0, 0, Packed),
      ShipmentRequested(0, 0, 0), ShipmentStatusChanged(0, 0, ShippingRequested),
      ReservationCancellationRequested(0, 0, Some(0)), ShipmentStatusChanged(0, 0, CancelPending)]
    ensures State16().resv.outbox == [ReservationRequested(0, 0, LINES, 1)]
    ensures State16().ship.rows == map[0 := WAITING]
  {
  }

  lemma RestIgnored()
    ensures System.Run(WORLD, State16(), Late(Inventory, Shipments, TO_INVENTORY)) == State17()
    ensures System.Run(WORLD, State17(), Late(Shipments, Inventory, TO_SHIPMENTS)) == State18()
    ensures System.Run(WORLD, State18(), Late(Reservations, Inventory, TO_RESERVATIONS)) == LastState()
  {
    Logs();
    hide State16, LINES, UNIT, System.Run, Late, Marks;
    RunIgnored(State16(), Inventory, Shipments, TO_INVENTORY);
    RunIgnored(State17(), Shipments, Inventory, TO_SHIPMENTS);
    RunIgnored(State18(), Reservations, Inventory, TO_RESERVATIONS);
  }

  lemma AllExchanged()
    ensures EndingRuns.Exchanged(LastState())
  {
    hide State14;
    Logs();
    Facts14();
    hide LINES, UNIT, WAITING;
    assert forall j: nat | j < 7 :: j in TO_INVENTORY || j == 3 || j == 5;
    assert forall i: nat | i < 6 :: i in TO_SHIPMENTS || i == 4 || i == 5;
    hide TO_INVENTORY, TO_SHIPMENTS, TO_RESERVATIONS;
  }

  lemma AllMarked()
    ensures EndingRuns.Exchanged(LastState()) && Agreement.Settled(LastState())
  {
    AllExchanged();
    hide EndingRuns.Exchanged, State14;
    Logs();
    Facts14();
    hide LINES, UNIT, WAITING;
    assert forall i: nat | i < 6 :: i in TO_RESERVATIONS || i == 3 || i == 4;
    hide TO_INVENTORY, TO_SHIPMENTS, TO_RESERVATIONS;
  }

  /** A client may cancel a shipment that has failed. */
  lemma FailedIsCancelled()
    ensures System.Run(WORLD, Empty(WORLD, 0), PATH + [HEAR_END, HEAR_REFUSAL] + [CANCEL]).ship.rows
              == map[0 := WAITING]
  {
    PathLeads();
    BothOrders();
    Cancels();
    assert State0() == Empty(WORLD, 0) && State14().ship.rows == map[0 := WAITING];
    hide *;
    RunMore(State0(), PATH, [HEAR_END, HEAR_REFUSAL]);
    RunOneMore(WORLD, State0(), PATH + [HEAR_END, HEAR_REFUSAL], CANCEL);
  }

  /** Every event between the three services has been processed, and the shipment is still
      CANCELLING. */
  lemma StillCancelling()
    ensures var s :=
              System.Run(WORLD, Empty(WORLD, 0), PATH + [HEAR_END, HEAR_REFUSAL] + [CANCEL] + [ANSWER] + [LEARN_END]
              + Late(Inventory, Shipments, TO_INVENTORY) + Late(Shipments, Inventory, TO_SHIPMENTS)
              + Late(Reservations, Inventory, TO_RESERVATIONS));
            s.ship.rows == map[0 := WAITING] && EndingRuns.Exchanged(s) && Agreement.Settled(s)
  {
    PathLeads();
    BothOrders();
    Cancels();
    Answers();
    LearnsEnd();
    RestIgnored();
    AllMarked();
    Logs();
    assert State0() == Empty(WORLD, 0) && LastState().ship.rows == map[0 := WAITING] by { hide State16; }
    hide *;
    var heard := PATH + [HEAR_END, HEAR_REFUSAL];
    var learnt := heard + [CANCEL] + [ANSWER] + [LEARN_END];
    var a, b := Late(Inventory, Shipments, TO_INVENTORY), Late(Shipments, Inventory, TO_SHIPMENTS);
    RunMore(State0(), PATH, [HEAR_END, HEAR_REFUSAL]);
    RunOneMore(WORLD, State0(), heard, CANCEL);
    RunOneMore(WORLD, State0(), heard + [CANCEL], ANSWER);
    RunOneMore(WORLD, State0(), heard + [CANCEL] + [ANSWER], LEARN_END);
    RunMore(State0(), learnt, a);
    RunMore(State0(), learnt + a, b);
    RunMore(State0(), learnt + a + b, Late(Reservations, Inventory, TO_RESERVATIONS));
  }
}
