/** The course of a shipment as its log tells it, over every run: nothing is shipped that
    was not picked and then packed, and a shipment that has asked to be shipped takes it
    back only when the inventory has refused it. */
module ShipmentCourse {
  import opened Domain
  import opened Events
  import opened InventoryRules
  import opened StockInvariant
  import opened System
  import opened SystemLogs
  import opened Agreement
  import opened AgreementRuns
  import opened Saga
  import opened SagaRuns
  import SagaKept
  import R = ReservationRules
  import S = ShipmentRules

  predicate Told(log: seq<Event>, i: nat, id: Uuid, status: ShipmentStatus) {
    i < |log| && log[i].ShipmentStatusChanged? && log[i].shipment == id && log[i].status == status
  }

  /** Picking and then packing were announced among the first `n` events. */
  ghost predicate Prepared(log: seq<Event>, n: nat, id: Uuid) {
    exists i: nat, k: nat :: i < k < n && Told(log, i, id, PickingGoods) && Told(log, k, id, Packed)
  }

  predicate Asks(log: seq<Event>, j: nat, id: Uuid) {
    j < |log| && log[j].ShipmentRequested? && log[j].shipment == id
  }

  predicate Recalls(log: seq<Event>, k: nat, id: Uuid) {
    k < |log| && log[k].ReservationCancellationRequested? && log[k].requester == Some(id)
  }

  ghost predicate Asked(log: seq<Event>, id: Uuid) {
    exists j: nat :: Asks(log, j, id)
  }

  // ----- the invariant -----

  ghost predicate RequestsPrepared(log: seq<Event>) {
    forall j: nat, id | Asks(log, j, id) :: Prepared(log, j, id)
  }

  /** `heard` is the log of the inventory. */
  ghost predicate RecallsExcused(log: seq<Event>, heard: seq<Event>) {
    forall j: nat, k: nat, id | j < k && Asks(log, j, id) && Recalls(log, k, id) ::
        TurnedDown(heard, id, log[k].reservation)
  }

  ghost predicate OnCourse(x: S.Shipment, id: Uuid, log: seq<Event>, heard: seq<Event>) {
    && (x.status == PickingGoods ==> exists i: nat :: Told(log, i, id, PickingGoods))
    && (x.status == Packed || x.status == ReadyForShipment ==> Prepared(log, |log|, id))
    && (x.status == CancelPending && Asked(log, id) ==> TurnedDown(heard, id, x.reservation))
  }

  ghost predicate CourseOk(st: S.Store, heard: seq<Event>) {
    && RequestsPrepared(st.outbox)
    && RecallsExcused(st.outbox, heard)
    && forall id | id in st.rows :: OnCourse(st.rows[id], id, st.outbox, heard)
  }

  // ----- a longer log -----

  /** Neither log forgets. */
  lemma Remembered(log: seq<Event>, more: seq<Event>, n: nat, id: Uuid)
    requires log <= more && n <= |log|
    ensures Prepared(log, n, id) ==> Prepared(more, n, id) && Prepared(more, |more|, id)
  {
    if Prepared(log, n, id) {
      var i: nat, k: nat :| i < k < n && Told(log, i, id, PickingGoods) && Told(log, k, id, Packed);
      assert Told(more, i, id, PickingGoods) && Told(more, k, id, Packed);
    }
  }

  /** An event that neither asks nor takes back. */
  predicate Plain(e: Event) {
    !e.ShipmentRequested? && !e.ReservationCancellationRequested?
  }

  lemma PlainEvent(log: seq<Event>, heard: seq<Event>, e: Event)
    requires RequestsPrepared(log) && RecallsExcused(log, heard) && Plain(e)
    ensures RequestsPrepared(log + [e]) && RecallsExcused(log + [e], heard)
    ensures forall id :: Asked(log + [e], id) ==> Asked(log, id)
  {
    var more := log + [e];
    forall j: nat, id | Asks(more, j, id)
      ensures Prepared(more, j, id) && Asked(log, id)
    {
      assert Asks(log, j, id);
      Remembered(log, more, j, id);
    }
    forall j: nat, k: nat, id | j < k && Asks(more, j, id) && Recalls(more, k, id)
      ensures TurnedDown(heard, id, more[k].reservation)
    {
      assert Asks(log, j, id) && Recalls(log, k, id);
    }
  }

  /** A request to ship what has been picked and packed. */
  lemma RequestEvent(log: seq<Event>, heard: seq<Event>, e: Event)
    requires RequestsPrepared(log) && RecallsExcused(log, heard)
    requires e.ShipmentRequested? && Prepared(log, |log|, e.shipment)
    ensures RequestsPrepared(log + [e]) && RecallsExcused(log + [e], heard)
    ensures forall id :: Asked(log + [e], id) ==> Asked(log, id) || id == e.shipment
  {
    var more := log + [e];
    forall j: nat, id | Asks(more, j, id)
      ensures Prepared(more, j, id) && (Asked(log, id) || id == e.shipment)
    {
      if j < |log| { assert Asks(log, j, id); }
      Remembered(log, more, j, id);
    }
    forall j: nat, k: nat, id | j < k && Asks(more, j, id) && Recalls(more, k, id)
      ensures TurnedDown(heard, id, more[k].reservation)
    {
      assert Asks(log, j, id) && Recalls(log, k, id);
    }
  }

  /** A cancellation by a shipment that has asked only if it was refused. */
  lemma RecallEvent(log: seq<Event>, heard: seq<Event>, e: Event)
    requires RequestsPrepared(log) && RecallsExcused(log, heard)
    requires e.ReservationCancellationRequested? && e.requester.Some?
    requires Asked(log, e.requester.value) ==> TurnedDown(heard, e.requester.value, e.reservation)
    ensures RequestsPrepared(log + [e]) && RecallsExcused(log + [e], heard)
    ensures forall id :: Asked(log + [e], id) ==> Asked(log, id)
  {
    var more := log + [e];
    forall j: nat, id | Asks(more, j, id)
      ensures Prepared(more, j, id) && Asked(log, id)
    {
      assert Asks(log, j, id);
      Remembered(log, more, j, id);
    }
    forall j: nat, k: nat, id | j < k && Asks(more, j, id) && Recalls(more, k, id)
      ensures TurnedDown(heard, id, more[k].reservation)
    {
      assert Asks(log, j, id);
      if k < |log| { assert Recalls(log, k, id); }
    }
  }

  /** A row that stays as it was, while others ask. */
  lemma StillOnCourse(x: S.Shipment, id: Uuid, log: seq<Event>, more: seq<Event>, heard: seq<Event>)
    requires OnCourse(x, id, log, heard) && log <= more
    requires x.status == CancelPending && Asked(more, id) ==> Asked(log, id)
    ensures OnCourse(x, id, more, heard)
  {
    Remembered(log, more, |log|, id);
    if x.status == PickingGoods {
      var i: nat :| Told(log, i, id, PickingGoods);
      assert Told(more, i, id, PickingGoods);
    }
  }

  lemma HeardMore(st: S.Store, heard: seq<Event>, more: seq<Event>)
    requires CourseOk(st, heard) && heard <= more
    ensures CourseOk(st, more)
  {
    forall id, r | TurnedDown(heard, id, r)
      ensures TurnedDown(more, id, r)
    {
      SagaKept.RefusedGrows(heard, more, id, r);
    }
  }

  // ----- the steps of the shipment service -----

  /** What the saga knows about a shipment before it advances. */
  ghost predicate Warranted(st: S.Store, heard: seq<Event>, id: Uuid)
    requires id in st.rows
  {
    var x := st.rows[id];
    && (Unsent(x.status) ==> !Asked(st.outbox, id))
    && (x.status == Failed ==> TurnedDown(heard, id, x.reservation))
  }

  /** The command an action sends, if any. */
  lemma AfterCommandOf(st: S.Store, heard: seq<Event>, id: Uuid, action: S.Action) returns (log: seq<Event>)
    requires CourseOk(st, heard) && id in st.rows && Warranted(st, heard, id)
    requires S.Transition(st, id, action).Ok?
    ensures var t := S.Transition(st, id, action).value;
            && st.outbox <= log && RequestsPrepared(log) && RecallsExcused(log, heard)
            && t.outbox == log + [ShipmentStatusChanged(id, st.rows[id].warehouse, t.rows[id].status)]
    ensures forall x :: Asked(log, x) ==> Asked(st.outbox, x) || (x == id && action == S.ShipOut)
  {
    var x := st.rows[id];
    hide Prepared, TurnedDown, RequestsPrepared, RecallsExcused, Asked;
    assert OnCourse(x, id, st.outbox, heard);
    match action
    case ShipOut =>
      var e := ShipmentRequested(id, x.warehouse, x.reservation);
      RequestEvent(st.outbox, heard, e);
      log := st.outbox + [e];
    case CancelShipment =>
      var e := ReservationCancellationRequested(x.reservation, x.warehouse, Some(id));
      RecallEvent(st.outbox, heard, e);
      log := st.outbox + [e];
    case _ => log := st.outbox;
  }

  lemma AfterAdvance(st: S.Store, heard: seq<Event>, id: Uuid, action: S.Action)
    requires CourseOk(st, heard) && id in st.rows && Warranted(st, heard, id)
    requires S.Transition(st, id, action).Ok?
    ensures CourseOk(S.Transition(st, id, action).value, heard)
  {
    var t := S.Transition(st, id, action).value;
    var log := AfterCommandOf(st, heard, id, action);
    var e := ShipmentStatusChanged(id, st.rows[id].warehouse, t.rows[id].status);
    PlainEvent(log, heard, e);
    forall x | x in t.rows && x != id
      ensures OnCourse(t.rows[x], x, t.outbox, heard)
    {
      StillOnCourse(st.rows[x], x, st.outbox, t.outbox, heard);
    }
    AdvancedOnCourse(st, heard, id, action, log);
  }

  lemma AdvancedOnCourse(st: S.Store, heard: seq<Event>, id: Uuid, action: S.Action, log: seq<Event>)
    requires CourseOk(st, heard) && id in st.rows && Warranted(st, heard, id)
    requires S.Transition(st, id, action).Ok?
    requires var t := S.Transition(st, id, action).value;
             && st.outbox <= log && t.outbox == log
                 + [ShipmentStatusChanged(id, st.rows[id].warehouse, t.rows[id].status)]
             && forall x :: Asked(t.outbox, x) ==> Asked(st.outbox, x) || (x == id && action == S.ShipOut)
    ensures var t := S.Transition(st, id, action).value; OnCourse(t.rows[id], id, t.outbox, heard)
  {
    var t := S.Transition(st, id, action).value;
    assert OnCourse(st.rows[id], id, st.outbox, heard);
    hide TurnedDown, Asked;
    match action
    case StartPicking => assert Told(t.outbox, |log|, id, PickingGoods);
    case Pack =>
      var i: nat :| Told(st.outbox, i, id, PickingGoods);
      assert Told(t.outbox, i, id, PickingGoods) && Told(t.outbox, |log|, id, Packed);
    case Ready => Remembered(st.outbox, t.outbox, |st.outbox|, id);
    case ShipOut =>
    case CancelShipment =>
  }

  lemma AfterClaiming(st: S.Store, heard: seq<Event>, r: Uuid, seen: Reply<R.Reservation>, id: Uuid)
    requires CourseOk(st, heard) && S.Create(st, r, seen, id).Ok?
    ensures CourseOk(S.Create(st, r, seen, id).value, heard)
  {
    var t := S.Create(st, r, seen, id).value;
    PlainEvent(st.outbox, heard, t.outbox[|st.outbox|]);
    hide RequestsPrepared, RecallsExcused, OnCourse, S.Claimed;
    forall x | x in st.rows
      ensures OnCourse(st.rows[x], x, t.outbox, heard)
    {
      StillOnCourse(st.rows[x], x, st.outbox, t.outbox, heard);
    }
    assert OnCourse(t.rows[id], id, t.outbox, heard) by { FreshOnCourse(t.rows[id], id, t.outbox, heard); }
  }

  /** No status but those of preparation and cancellation promises anything. */
  lemma FreshOnCourse(x: S.Shipment, id: Uuid, log: seq<Event>, heard: seq<Event>)
    requires x.status in {Reserved, ShippingRequested, Shipped, ShipmentCancelled, Failed}
    ensures OnCourse(x, id, log, heard)
  {
  }

  lemma AfterHearing(st: S.Store, heard: seq<Event>, e: Event)
    requires CourseOk(st, heard) && S.Handle(st, e).Ok?
    ensures CourseOk(S.Handle(st, e).value, heard)
  {
    var t := S.Handle(st, e).value;
    if t.outbox != st.outbox { PlainEvent(st.outbox, heard, t.outbox[|st.outbox|]); }
    hide RequestsPrepared, RecallsExcused, OnCourse, Asked;
    forall x | x in t.rows
      ensures OnCourse(t.rows[x], x, t.outbox, heard)
    {
      if t.rows[x] == st.rows[x] {
        StillOnCourse(st.rows[x], x, st.outbox, t.outbox, heard);
      } else {
        FreshOnCourse(t.rows[x], x, t.outbox, heard);
      }
    }
  }

  // ----- every run -----

  lemma SagaIsReady(s: Sys, id: Uuid)
    requires SagaOk(s) && id in s.ship.rows
    ensures Warranted(s.ship, s.inv.outbox, id)
  {
    assert StatusTrue(s, id) && ShipmentsOk(s);
    if Asked(s.ship.outbox, id) {
      var j: nat :| Asks(s.ship.outbox, j, id);
      assert SentTrue(s, s.ship.outbox[j]);
    }
  }

  lemma CourseNext(world: map<Uuid, Site>, s: Sys, a: Step)
    requires InOrder(world, s) && CourseOk(s.ship, s.inv.outbox)
    ensures var t := Next(world, s, a); CourseOk(t.ship, t.inv.outbox)
  {
    var t := Next(world, s, a);
    assert s.inv.outbox <= t.inv.outbox by { InventoryLogGrows(world, s, a); }
    assert SagaOk(s);
    hide InOrder, SagaOk, Agree, CourseOk, Warranted, Recognised, Commit, Proper, InventoryRules.Handle;
    hide R.Create, R.Cancel, R.Handle, S.Create, S.Transition, S.Handle;
    ShipmentStep(world, s, a);
    if t.ship != s.ship {
      match a
      case Claim(r, seen, id) => AfterClaiming(s.ship, s.inv.outbox, r, seen, id);
      case Advance(id, action) =>
        assert id in s.ship.rows by { AdvancesKnown(s.ship, id, action); }
        SagaIsReady(s, id);
        AfterAdvance(s.ship, s.inv.outbox, id, action);
      case Deliver(_, ref, _) => AfterHearing(s.ship, s.inv.outbox, Log(s, ref.source)[ref.index]);
      case _ =>
    }
    HeardMore(t.ship, s.inv.outbox, t.inv.outbox);
  }

  lemma AdvancesKnown(st: S.Store, id: Uuid, action: S.Action)
    requires S.Transition(st, id, action).Ok?
    ensures id in st.rows
  {
  }

  lemma InventoryLogGrows(world: map<Uuid, Site>, s: Sys, a: Step)
    requires InOrder(world, s)
    ensures s.inv.outbox <= Next(world, s, a).inv.outbox
  {
    assert StockOk(s.inv);
    hide InOrder, StockOk, Next;
    NextExtends(world, s, a);
    assert Extends(Inventory, Log(s, Inventory), Log(Next(world, s, a), Inventory));
  }

  /** The shipment service moves only by its own three operations. */
  lemma ShipmentStep(world: map<Uuid, Site>, s: Sys, a: Step)
    ensures var t := Next(world, s, a);
            t.ship != s.ship ==>
              match a
              case Claim(r, seen, id) => S.Create(s.ship, r, seen, id) == Ok(t.ship)
              case Advance(id, action) => S.Transition(s.ship, id, action) == Ok(t.ship)
              case Deliver(_, ref, _) =>
                ref.index < |Log(s, ref.source)| && S.Handle(s.ship, Log(s, ref.source)[ref.index]) == Ok(t.ship)
              case _ => false
  {
    hide Commit, Proper, InventoryRules.Handle, Recognised, R.Create, R.Cancel, R.Handle, S.Create, S.Transition;
    hide S.Handle;
  }

  lemma {:induction false} RunKeepsCourse(world: map<Uuid, Site>, s: Sys, steps: seq<Step>)
    requires InOrder(world, s) && CourseOk(s.ship, s.inv.outbox)
    ensures var t := System.Run(world, s, steps); CourseOk(t.ship, t.inv.outbox)
    decreases |steps|
  {
    hide Next, InOrder, CourseOk;
    if steps != [] {
      CourseNext(world, s, steps[0]);
      InOrderNext(world, s, steps[0]);
      RunKeepsCourse(world, Next(world, s, steps[0]), steps[1..]);
    }
  }

  lemma InOrderNext(world: map<Uuid, Site>, s: Sys, a: Step)
    requires InOrder(world, s)
    ensures InOrder(world, Next(world, s, a))
  {
    hide Next, SagaOk, Good, LookupsOk;
    SagaNext(world, s, a);
    GoodNext(world, s, a);
    LookupsNext(world, s, a);
  }

  /** In every reachable state: a request to ship comes after its shipment was announced
      as picked and then as packed; and a shipment that takes its reservation back after
      such a request has been refused by the inventory. */
  lemma ShipmentsKeepTheirCourse(world: map<Uuid, Site>, now: Time, steps: seq<Step>)
    ensures var s := System.Run(world, Empty(world, now), steps);
            RequestsPrepared(s.ship.outbox) && RecallsExcused(s.ship.outbox, s.inv.outbox)
  {
    hide InOrder, System.Run;
    EmptyInOrder(world, now);
    RunKeepsCourse(world, Empty(world, now), steps);
  }
}
