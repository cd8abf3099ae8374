/** The life of a shipment in plain terms: what it is made of, which actions lead from which
    status to which, what they send, and what the events of the inventory change. */
module ShipmentLife {
  import opened Domain
  import opened Events
  import R = ReservationRules
  import S = ShipmentRules

  // ----- creation -----

  /** The shipment is what the reservation holds, with nothing done yet. */
  predicate IsShipmentOf(x: S.Shipment, e: Event, r: Uuid, seen: R.Reservation, id: Uuid) {
    && x.warehouse == seen.warehouse && x.items == seen.items && x.reservation == r
    && x.status == ShipmentStatus.Reserved && x.reason.None?
    && e == ShipmentCreated(id, seen.warehouse, r, seen.items)
  }

  ghost predicate Creates(before: S.Store, r: Uuid, seen: Reply<R.Reservation>, id: Uuid, o: Outcome<S.Store>) {
    if !seen.Found? then o == Err(Fault(DependencyUnavailable, 503))
    else if seen.value.life != R.Known(Confirmed) then o == Err(Fault(ReservationRequired, 409))
    else if id in before.rows || (exists k | k in before.rows :: before.rows[k].reservation == r) then
      o == Err(Broken(DuplicateKey))
    else
      && o.Ok? && id in o.value.rows && |o.value.outbox| == |before.outbox| + 1
      && o.value.rows == before.rows[id := o.value.rows[id]]
      && o.value.outbox[..|before.outbox|] == before.outbox
      && IsShipmentOf(o.value.rows[id], o.value.outbox[|before.outbox|], r, seen.value, id)
  }

  /** A shipment is made of a reservation shown as confirmed that no other shipment has. */
  lemma CreateDecides(st: S.Store, r: Uuid, seen: Reply<R.Reservation>, id: Uuid)
    ensures Creates(st, r, seen, id, S.Create(st, r, seen, id))
  {
  }

  // ----- actions -----

  /** The action leads from the one status to the other. */
  predicate Leads(before: ShipmentStatus, action: S.Action, after: ShipmentStatus) {
    || (action == S.StartPicking && before == ShipmentStatus.Reserved && after == PickingGoods)
    || (action == S.Pack && before == PickingGoods && after == Packed)
    || (action == S.Ready && before == Packed && after == ReadyForShipment)
    || (action == S.ShipOut && before in {Packed, ReadyForShipment} && after == ShippingRequested)
    || (action == S.CancelShipment && after == CancelPending
        && before in {ShipmentStatus.Reserved, PickingGoods, Packed, ReadyForShipment, CancelPending, Failed})
  }

  /** What the action asks of the inventory. */
  function Asks(x: S.Shipment, id: Uuid, action: S.Action): seq<Event> {
    if action == S.ShipOut then [ShipmentRequested(id, x.warehouse, x.reservation)]
    else if action == S.CancelShipment then [ReservationCancellationRequested(x.reservation, x.warehouse, Some(id))]
    else []
  }

  ghost predicate Acts(before: S.Store, id: Uuid, action: S.Action, o: Outcome<S.Store>) {
    if id !in before.rows then o == Err(Fault(NotFound, 404))
    else
      var x := before.rows[id];
      && ((forall after :: !Leads(x.status, action, after)) ==> o == Err(Fault(InvalidState, 409)))
      && forall after | Leads(x.status, action, after) ::
           o == Ok(S.Store(before.rows[id := S.Shipment(x.warehouse, x.reservation, after, x.items, x.reason)],
                           before.outbox + Asks(x, id, action) + [ShipmentStatusChanged(id, x.warehouse, after)]))
  }

  /** An action is taken exactly from the statuses it leads from; it asks the inventory first
      and then tells the new status. */
  lemma TransitionDecides(st: S.Store, id: Uuid, action: S.Action)
    ensures Acts(st, id, action, S.Transition(st, id, action))
  {
    if id in st.rows {
      var x := st.rows[id];
      if S.Target(x.status, action).Some? {
        assert Leads(x.status, action, S.Target(x.status, action).value);
        assert st.outbox + Asks(x, id, action)
            + [ShipmentStatusChanged(id, x.warehouse, S.Target(x.status, action).value)]
            == S.Transition(st, id, action).value.outbox;
      }
    }
  }

  // ----- events -----

  /** How the event ends the shipments of a reservation. */
  predicate Ends(e: Event, r: Uuid, status: ShipmentStatus, reason: S.Reason) {
    || (e.ShipmentRejected? && e.reservation == r && status == Failed && reason == S.ByCode(e.reason))
    || (e.StockReservationCancelled? && e.reservation == r && status == ShipmentCancelled
        && reason == S.ByEvent("StockReservationCancelled"))
    || (e.ReservationExpired? && e.reservation == r && status == ShipmentCancelled
        && reason == S.ByEvent("ReservationExpired"))
  }

  ghost predicate Hears(before: S.Store, e: Event, o: Outcome<S.Store>) {
    if e.StockShipped? then
      if e.shipment !in before.rows then o == Err(Fault(NotFound, 404))
      else
        var x := before.rows[e.shipment];
        if x.status == Shipped then o == Ok(before)
        else
          o == Ok(S.Store(before.rows[e.shipment := S.Shipment(x.warehouse, x.reservation, Shipped, x.items, x.reason)],
                          before.outbox + [ShipmentCompleted(e.shipment, x.warehouse, x.reservation, x.items)]))
    else
      && o.Ok? && o.value.outbox == before.outbox && o.value.rows.Keys == before.rows.Keys
      && forall id | id in before.rows ::
           var x, y := before.rows[id], o.value.rows[id];
           && ((x.status == Shipped || forall status, reason :: !Ends(e, x.reservation, status, reason)) ==> y == x)
           && forall status, reason | Ends(e, x.reservation, status, reason) && x.status != Shipped ::
                y == S.Shipment(x.warehouse, x.reservation, status, x.items, Some(reason))
  }

  /** StockShipped completes its shipment once; a refusal, a cancellation and an expiry end
      every shipment of the reservation that is not shipped, and say why. */
  lemma HandleDecides(st: S.Store, e: Event)
    ensures Hears(st, e, S.Handle(st, e))
  {
    if e.ShipmentRejected? || e.StockReservationCancelled? || e.ReservationExpired? {
      forall id | id in st.rows && st.rows[id].reservation == e.reservation && st.rows[id].status != Shipped
        ensures Ends(e, e.reservation, S.Ended(st.rows[id], e).status, S.Ended(st.rows[id], e).reason.value)
      {
      }
    }
  }
}
