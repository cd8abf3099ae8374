/** The shipment saga: what the shipment service does to its rows and its outbox. */
module ShipmentRules {
  import opened Domain
  import opened Events
  import ReservationRules

  /** Why a shipment ended: the code of a rejection or the type of the event. */
  datatype Reason = ByCode(code: Code) | ByEvent(name: string)

  datatype Shipment = Shipment(
    warehouse: Uuid, reservation: Uuid, status: ShipmentStatus, items: seq<Line>, reason: Option<Reason>)

  datatype Store = Store(rows: map<Uuid, Shipment>, outbox: seq<Event>)

  function Emit(s: Store, e: Event): Store {
    s.(outbox := s.outbox + [e])
  }

  predicate Claimed(s: Store, reservation: Uuid) {
    exists id | id in s.rows :: s.rows[id].reservation == reservation
  }

  /** `reply` is what the reservation service answered for the reservation. */
  function Create(s: Store, reservation: Uuid, reply: Reply<ReservationRules.Reservation>,
                  newId: Uuid): Outcome<Store> {
    if !reply.Found? then Err(Fault(DependencyUnavailable, 503))
    else if reply.value.life != ReservationRules.Known(Confirmed) then Err(Fail(ReservationRequired))
    else if newId in s.rows || Claimed(s, reservation) then Err(Broken(DuplicateKey))
    else
      var x := Shipment(reply.value.warehouse, reservation, Reserved, reply.value.items, None);
      Ok(Emit(s.(rows := s.rows[newId := x]), ShipmentCreated(newId, x.warehouse, reservation, x.items)))
  }

  datatype Action = StartPicking | Pack | Ready | ShipOut | CancelShipment

  /** The status an action leads to, when the guard of the action lets it. */
  function Target(status: ShipmentStatus, action: Action): Option<ShipmentStatus> {
    match action
    case StartPicking => if status == Reserved then Some(PickingGoods) else None
    case Pack => if status == PickingGoods then Some(Packed) else None
    case Ready => if status == Packed then Some(ReadyForShipment) else None
    case ShipOut => if status == Packed || status == ReadyForShipment then Some(ShippingRequested) else None
    case CancelShipment =>
      if status == ShippingRequested || status == Shipped || status == ShipmentCancelled then None
          else Some(CancelPending)
  }

  function Transition(s: Store, id: Uuid, action: Action): Outcome<Store> {
    if id !in s.rows then Err(Fault(NotFound, 404))
    else
      var x := s.rows[id];
      match Target(x.status, action)
      case None => Err(Fail(InvalidState))
      case Some(status) =>
        var s1 := s.(rows := s.rows[id := x.(status := status)]);
        var s2 :=
          match action
          case ShipOut => Emit(s1, ShipmentRequested(id, x.warehouse, x.reservation))
          case CancelShipment => Emit(s1, ReservationCancellationRequested(x.reservation, x.warehouse, Some(id)))
          case _ => s1;
        Ok(Emit(s2, ShipmentStatusChanged(id, x.warehouse, status)))
  }

  /** A shipment whose reservation was refused, cancelled or expired. */
  function Ended(x: Shipment, e: Event): Shipment
    requires e.ShipmentRejected? || e.StockReservationCancelled? || e.ReservationExpired?
  {
    if x.status == Shipped then x
    else
      match e
      case ShipmentRejected(_, _, _, code) => x.(status := Failed, reason := Some(ByCode(code)))
      case StockReservationCancelled(_, _, _) =>
        x.(status := ShipmentCancelled, reason := Some(ByEvent("StockReservationCancelled")))
      case ReservationExpired(_, _, _) => x.(status := ShipmentCancelled, reason := Some(ByEvent("ReservationExpired")))
  }

  function EndAll(rows: map<Uuid, Shipment>, e: Event): map<Uuid, Shipment>
    requires e.ShipmentRejected? || e.StockReservationCancelled? || e.ReservationExpired?
  {
    map id | id in rows :: if rows[id].reservation == e.reservation then Ended(rows[id], e) else rows[id]
  }

  function Handle(s: Store, e: Event): Outcome<Store> {
    if e.StockShipped? then
      if e.shipment !in s.rows then Err(Fault(NotFound, 404))
      else
        var x := s.rows[e.shipment];
        if x.status == Shipped then Ok(s)
        else
          Ok(Emit(s.(rows := s.rows[e.shipment := x.(status := Shipped)]),
                  ShipmentCompleted(e.shipment, x.warehouse, x.reservation, x.items)))
    else if e.ShipmentRejected? || e.StockReservationCancelled? || e.ReservationExpired? then
      Ok(s.(rows := EndAll(s.rows, e)))
    else Ok(s)
  }
}
