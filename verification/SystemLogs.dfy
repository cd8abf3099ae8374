/** Every step of the system: the logs only grow, by events of the emitting service,
    and inbox markers are only added for the event that was delivered. */
module SystemLogs {
  import opened Domain
  import opened Events
  import opened InventoryRules
  import opened StockInvariant
  import opened InventorySafety
  import opened Effects
  import opened System
  import R = ReservationRules
  import S = ShipmentRules
  import P = PlacementRules
  import W = OccupancyRules

  /** Inbox markers are for events that have been committed. */
  ghost predicate MarksReal(s: Sys) {
    forall m | m in s.done :: m.ref.index < |Log(s, m.ref.source)|
  }

  ghost predicate Extends(source: Service, log: seq<Event>, longer: seq<Event>) {
    log <= longer && forall i | |log| <= i < |longer| :: Emits(source, longer[i])
  }

  lemma InventoryExtends(db: Db, t: Transaction)
    requires StockOk(db)
    ensures Extends(Inventory, db.outbox, Commit(db, t).outbox)
  {
    hide StockOk, Grows, Commit;
    TransactionEffect(db, t);
    var after := Commit(db, t);
    if Hushed(db, after) {
    } else if exists r, e :: Announced(db, after, r, e) {
      var r, e :| Announced(db, after, r, e);
      forall i | |db.outbox| <= i < |after.outbox|
        ensures Emits(Inventory, after.outbox[i])
      {
        assert i < |after.outbox| - 1 ==> Silent(after.outbox[..|after.outbox| - 1][i]);
      }
      assert db.outbox <= after.outbox[..|after.outbox| - 1] <= after.outbox;
    } else {
      var r, s :| Declined(db, after, r, s);
    }
  }

  ghost predicate AllExtend(s: Sys, t: Sys) {
    forall source :: Extends(source, Log(s, source), Log(t, source))
  }

  lemma ReservationExtends(st: R.Store, now: Time, q: R.Input, id: Uuid, e: Event)
    ensures R.Create(st, now, q, id).Ok? ==> Extends(Reservations, st.outbox, R.Create(st, now, q, id).value.outbox)
    ensures R.Cancel(st, id).Ok? ==> Extends(Reservations, st.outbox, R.Cancel(st, id).value.outbox)
    ensures R.Handle(st, e).Ok? ==> R.Handle(st, e).value.outbox == st.outbox
  {
  }

  lemma ShipmentExtends(st: S.Store, r: Uuid, seen: Reply<R.Reservation>, id: Uuid, action: S.Action, e: Event)
    ensures S.Create(st, r, seen, id).Ok? ==> Extends(Shipments, st.outbox, S.Create(st, r, seen, id).value.outbox)
    ensures S.Transition(st, id, action).Ok? ==>
              Extends(Shipments, st.outbox, S.Transition(st, id, action).value.outbox)
    ensures S.Handle(st, e).Ok? ==> Extends(Shipments, st.outbox, S.Handle(st, e).value.outbox)
  {
    hide S.EndAll, S.Claimed;
  }

  lemma PlacementExtends(st: P.Store, now: Time, stock: Uuid, lot: Reply<P.LotView>, ls: Reply<seq<P.Candidate>>,
                         e: Event)
    ensures P.Handle(st, now, e).outbox == st.outbox
    ensures stock in st.jobs && P.Assign(st, now, stock, lot, ls).Ok? ==>
              Extends(Placements, st.outbox, P.Assign(st, now, stock, lot, ls).value.outbox)
  {
    hide P.Choose;
  }

  lemma WarehouseExtends(st: W.Store, l: Uuid, status: LocationStatus, e: Event)
    ensures W.Handle(st, e).Ok? ==> W.Handle(st, e).value.outbox == st.outbox
    ensures W.SetStatus(st, l, status).Ok? ==> Extends(Warehouses, st.outbox, W.SetStatus(st, l, status).value.outbox)
  {
  }

  lemma ConsumeExtends(world: map<Uuid, Site>, s: Sys, consumer: Service, e: Event, reply: Reply<Location>)
    requires StockOk(s.inv)
    ensures var o := Consume(world, s, consumer, e, reply); o.Some? ==> AllExtend(s, o.value) && o.value.done == s.done
  {
    hide StockOk, InventoryRules.Handle, R.Handle, S.Handle, P.Handle, W.Handle, HonestFor;
    InventoryExtends(s.inv, Consuming(s.now, e, reply));
    ReservationExtends(s.resv, s.now, R.Input(0, [], None), 0, e);
    ShipmentExtends(s.ship, 0, NoAnswer, 0, S.Pack, e);
    PlacementExtends(s.place, s.now, 0, NoAnswer, NoAnswer, e);
    WarehouseExtends(s.ware, 0, Available, e);
  }

  lemma NextExtends(world: map<Uuid, Site>, s: Sys, a: Step)
    requires StockOk(s.inv)
    ensures AllExtend(s, Next(world, s, a))
  {
    hide StockOk, Commit, R.Create, R.Cancel, S.Create, S.Transition, P.Assign, W.SetStatus, Proper, Consume;
    match a
    case Tick(_) =>
    case Command(t) => InventoryExtends(s.inv, t);
    case Expire(r) => InventoryExtends(s.inv, Expiring(r));
    case Deliver(consumer, ref, reply) =>
      if ref.index < |Log(s, ref.source)| {
        ConsumeExtends(world, s, consumer, Log(s, ref.source)[ref.index], reply);
      }
    case Book(q, id) => ReservationExtends(s.resv, s.now, q, id, WarehouseLocationStatusChanged(0, 0, Available));
    case Cancel(r) =>
        ReservationExtends(s.resv, s.now, R.Input(0, [], None), r, WarehouseLocationStatusChanged(0, 0, Available));
    case Lookup(_) =>
    case Claim(r, seen, id) =>
        ShipmentExtends(s.ship, r, seen, id, S.Pack, WarehouseLocationStatusChanged(0, 0, Available));
    case Advance(id, action) =>
        ShipmentExtends(s.ship, 0, NoAnswer, id, action, WarehouseLocationStatusChanged(0, 0, Available));
    case Begin(_) =>
    case Finish(stock, ls) =>
      if stock in s.reading {
        PlacementExtends(s.place, s.now, stock, Found(s.reading[stock]), ls,
            WarehouseLocationStatusChanged(0, 0, Available));
      }
    case Abort(_) =>
    case Administer(l, status) => WarehouseExtends(s.ware, l, status, WarehouseLocationStatusChanged(0, 0, Available));
  }

  /** Markers are only ever added for the delivered event. */
  predicate Marks(a: Step, s: Sys, t: Sys) {
    || t.done == s.done
    || (a.Deliver? && a.ref.index < |Log(s, a.ref.source)| && Mark(a.consumer, a.ref) !in s.done
        && t.done == s.done + {Mark(a.consumer, a.ref)})
  }

  lemma NextMarks(world: map<Uuid, Site>, s: Sys, a: Step)
    ensures Marks(a, s, Next(world, s, a))
  {
    hide Commit, R.Create, R.Cancel, S.Create, S.Transition, P.Assign, W.SetStatus, Proper;
    hide InventoryRules.Handle, R.Handle, S.Handle, P.Handle, W.Handle, HonestFor, P.Due;
  }
}
