/** The five services and the events between them, driven by an adversarial
    scheduler: any committed event may reach any consumer at any time, in any order
    and any number of times, and any attempt may fail without a trace. */
module System {
  import opened Domain
  import opened Events
  import opened InventoryRules
  import opened InventorySafety
  import R = ReservationRules
  import S = ShipmentRules
  import P = PlacementRules
  import W = OccupancyRules

  datatype Service = Inventory | Reservations | Shipments | Placements | Warehouses

  /** An event id: the outbox row it was committed to. */
  datatype Ref = Ref(source: Service, index: nat)

  /** An inbox row: the consumer has processed the event. */
  datatype Mark = Mark(consumer: Service, ref: Ref)

  datatype Sys = Sys(
    now: Time,
    inv: Db,
    resv: R.Store,
    ship: S.Store,
    place: P.Store,
    ware: W.Store,
    reading: map<Uuid, P.LotView>,  // placement jobs whose row is locked, with the lot they have read
    answers: set<(Uuid, R.Reservation)>,  // rows the reservation service has answered a lookup with
    done: set<Mark>)

  function Log(s: Sys, source: Service): seq<Event> {
    match source
    case Inventory => s.inv.outbox
    case Reservations => s.resv.outbox
    case Shipments => s.ship.outbox
    case Placements => s.place.outbox
    case Warehouses => s.ware.outbox
  }

  /** The event exists and the consumer has its inbox marker. */
  predicate Done(s: Sys, consumer: Service, source: Service, i: nat) {
    Mark(consumer, Ref(source, i)) in s.done
  }

  datatype Step =
    | Tick(seconds: nat)
    | Command(t: Transaction)
    | Expire(reservation: Uuid)
    | Deliver(consumer: Service, ref: Ref, reply: Reply<Location>)
    | Book(input: R.Input, newId: Uuid)
    | Cancel(reservation: Uuid)
    | Lookup(reservation: Uuid)
    | Claim(reservation: Uuid, seen: Reply<R.Reservation>, newId: Uuid)
    | Advance(shipment: Uuid, action: S.Action)
    | Begin(stock: Uuid)
    | Finish(stock: Uuid, locations: Reply<seq<P.Candidate>>)
    | Abort(stock: Uuid)
    | Administer(location: Uuid, status: LocationStatus)

  /** HTTP commands of the inventory service, at the current time, with honest lookups and new ids. */
  predicate Proper(world: map<Uuid, Site>, s: Sys, t: Transaction) {
    && (t.Receiving? || t.Changing?) && t.now == s.now && HonestFor(world, s.inv, t) && WellMet(s.inv, t)
  }

  /** A reservation lookup may be stale, but it shows a row that the reservation service once held. */
  predicate Recognised(s: Sys, reservation: Uuid, seen: Reply<R.Reservation>) {
    seen.Found? ==> (reservation, seen.value) in s.answers
  }

  /** A list of locations tells the facts that never change, like every other lookup. */
  predicate Surveyed(world: map<Uuid, Site>, locations: Reply<seq<P.Candidate>>) {
    locations.Found? ==> forall c | c in locations.value :: c.id in world && c.site == world[c.id]
  }

  /** The placement job row an event would have to wait for. */
  predicate MustWait(s: Sys, e: Event) {
    (e.GoodsReceived? || e.PlacementRejected? || e.StockAdded?) && e.stock in s.reading
  }

  /** The effects of one event on one consumer, or `None` when the attempt is rolled back. */
  function Consume(world: map<Uuid, Site>, s: Sys, consumer: Service, e: Event, reply: Reply<Location>): Option<Sys> {
    match consumer
    case Inventory =>
      if !HonestFor(world, s.inv, Consuming(s.now, e, reply)) then None
      else (match InventoryRules.Handle(s.inv, s.now, e, reply) case Ok(db) => Some(s.(inv := db)) case Err(_) => None)
    case Reservations => (match R.Handle(s.resv, e) case Ok(st) => Some(s.(resv := st)) case Err(_) => None)
    case Shipments => (match S.Handle(s.ship, e) case Ok(st) => Some(s.(ship := st)) case Err(_) => None)
    case Placements => if MustWait(s, e) then None else Some(s.(place := P.Handle(s.place, s.now, e)))
    case Warehouses => (match W.Handle(s.ware, e) case Ok(st) => Some(s.(ware := st)) case Err(_) => None)
  }

  function DeliverTo(world: map<Uuid, Site>, s: Sys, consumer: Service, ref: Ref, reply: Reply<Location>): Sys {
    if ref.index >= |Log(s, ref.source)| || Mark(consumer, ref) in s.done then s
    else
      match Consume(world, s, consumer, Log(s, ref.source)[ref.index], reply)
      case None => s
      case Some(s1) => s1.(done := s1.done + {Mark(consumer, ref)})
  }

  function Next(world: map<Uuid, Site>, s: Sys, a: Step): Sys {
    match a
    case Tick(n) => s.(now := s.now + n)
    case Command(t) => if Proper(world, s, t) then s.(inv := Commit(s.inv, t)) else s
    case Expire(r) =>
      if r in s.inv.bookings && s.inv.bookings[r].status == Confirmed && s.inv.bookings[r].expires <= s.now
      then s.(inv := Commit(s.inv, Expiring(r))) else s
    case Deliver(consumer, ref, reply) => DeliverTo(world, s, consumer, ref, reply)
    case Book(q, newId) => (match R.Create(s.resv, s.now, q, newId) case Ok(st) => s.(resv := st) case Err(_) => s)
    case Cancel(r) => (match R.Cancel(s.resv, r) case Ok(st) => s.(resv := st) case Err(_) => s)
    case Lookup(r) => if r in s.resv.rows then s.(answers := s.answers + {(r, s.resv.rows[r])}) else s
    case Claim(r, seen, newId) =>
      if !Recognised(s, r, seen) then s
      else (match S.Create(s.ship, r, seen, newId) case Ok(st) => s.(ship := st) case Err(_) => s)
    case Advance(id, action) => (match S.Transition(s.ship, id, action) case Ok(st) => s.(ship := st) case Err(_) => s)
    case Begin(stock) =>
      if P.Due(s.place, s.now, stock) && stock !in s.reading && stock in s.inv.lots then
        s.(reading := s.reading[stock := P.LotView(s.inv.lots[stock].quantity, s.inv.lots[stock].location)])
      else s
    case Finish(stock, locations) =>
      if stock !in s.reading || stock !in s.place.jobs || !Surveyed(world, locations) then s
      else
        var s1 := s.(reading := s.reading - {stock});
        (match P.Assign(s.place, s.now, stock, Found(s.reading[stock]), locations)
         case Ok(st) => s1.(place := st)
         case Err(_) => s1)
    case Abort(stock) => s.(reading := s.reading - {stock})
    case Administer(l, status) => (match W.SetStatus(s.ware, l, status) case Ok(st) => s.(ware := st) case Err(_) => s)
  }

  function Empty(world: map<Uuid, Site>, now: Time): Sys {
    Sys(now, EMPTY, R.Store(map[], []), S.Store(map[], []), P.Store(map[], []),
        W.Store(map l | l in world :: W.Place(world[l], NO_LOAD, 0, Available), []), map[], {}, {})
  }

  function Run(world: map<Uuid, Site>, s: Sys, steps: seq<Step>): Sys
    decreases |steps|
  {
    if steps == [] then s else Run(world, Next(world, s, steps[0]), steps[1..])
  }

  lemma {:induction false} RunOneMore(world: map<Uuid, Site>, s: Sys, steps: seq<Step>, a: Step)
    ensures Run(world, s, steps + [a]) == Next(world, Run(world, s, steps), a)
    decreases |steps|
  {
    hide Next;
    if steps == [] {
      assert steps + [a] == [a] && [a][1..] == [];
    } else {
      assert (steps + [a])[1..] == steps[1..] + [a];
      RunOneMore(world, Next(world, s, steps[0]), steps[1..], a);
    }
  }

  // ----- who emits what -----

  /** Each service emits its own event types. */
  predicate Emits(source: Service, e: Event) {
    match source
    case Inventory =>
      || e.GoodsReceived? || e.StockAdded? || e.StockMoved? || e.StockWrittenOff? || e.StockAdjusted?
      || e.LocationCapacityChanged? || e.StockReserved? || e.ReservationRejected? || e.StockReservationCancelled?
      || e.ReservationExpired? || e.ReservationCancellationRejected? || e.StockShipped? || e.ShipmentRejected?
      || e.PlacementRejected?
    case Reservations => e.ReservationRequested? || (e.ReservationCancellationRequested? && e.requester.None?)
    case Shipments =>
      || e.ShipmentCreated? || e.ShipmentStatusChanged? || e.ShipmentRequested? || e.ShipmentCompleted?
      || (e.ReservationCancellationRequested? && e.requester.Some?)
    case Placements => e.ProductPlacementAssigned?
    case Warehouses => e.WarehouseLocationStatusChanged?
  }

  ghost predicate Typed(s: Sys) {
    forall source, e | e in Log(s, source) :: Emits(source, e)
  }
}
