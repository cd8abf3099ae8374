/** The shipment service as it works: entities updated in place, with a loop over the
    shipments of a reservation. */
module ShipmentService {
  import opened Domain
  import opened Events
  import ShipmentLife
  import R = ReservationRules
  import S = ShipmentRules

  /** No two shipments are for the same reservation. */
  ghost predicate Unique(rows: map<Uuid, S.Shipment>) {
    forall a, b | a in rows && b in rows && rows[a].reservation == rows[b].reservation :: a == b
  }

  /** Rows stay, keep whose they are, and do not change once they are shipped. */
  ghost predicate Stays(rows: map<Uuid, S.Shipment>, after: map<Uuid, S.Shipment>) {
    forall id | id in rows ::
      && id in after
      && after[id] == rows[id].(status := after[id].status, reason := after[id].reason)
      && (rows[id].status == Shipped ==> after[id] == rows[id])
  }

  ghost predicate Follows(spec: Outcome<S.Store>, before: S.Store, o: Outcome<()>, after: S.Store) {
    match spec
    case Ok(s) => o == Ok(()) && after == s
    case Err(e) => o == Err(e) && after == before
  }

  class Shipments {
    var rows: map<Uuid, S.Shipment>
    var outbox: seq<Event>

    function Store(): S.Store
      reads this
    {
      S.Store(rows, outbox)
    }

    constructor ()
      ensures Store() == S.Store(map[], [])
    {
      rows, outbox := map[], [];
    }

    method Emit(e: Event)
      modifies this`outbox
      ensures outbox == old(outbox) + [e]
    {
      outbox := outbox + [e];
    }

    method Create(reservation: Uuid, reply: Reply<R.Reservation>, newId: Uuid) returns (o: Outcome<()>)
      modifies this
      ensures Follows(S.Create(old(Store()), reservation, reply, newId), old(Store()), o, Store())
      ensures ShipmentLife.Creates(old(Store()), reservation, reply, newId, Resulting(o, Store()))
      ensures Unique(old(rows)) ==> Unique(rows)
      ensures Stays(old(rows), rows)
    {
      ShipmentLife.CreateDecides(Store(), reservation, reply, newId);
      if !reply.Found? {
        return Err(Fault(DependencyUnavailable, 503));
      }
      var r := reply.value;
      if r.life != R.Known(Confirmed) {
        return Err(Fail(ReservationRequired));
      }
      if newId in rows || S.Claimed(Store(), reservation) {
        return Err(Broken(DuplicateKey));
      }
      rows := rows[newId := S.Shipment(r.warehouse, reservation, Reserved, r.items, None)];
      Emit(ShipmentCreated(newId, r.warehouse, reservation, r.items));
      o := Ok(());
    }

    method Transition(id: Uuid, action: S.Action) returns (o: Outcome<()>)
      modifies this
      ensures Follows(S.Transition(old(Store()), id, action), old(Store()), o, Store())
      ensures ShipmentLife.Acts(old(Store()), id, action, Resulting(o, Store()))
      ensures Stays(old(rows), rows) && rows.Keys == old(rows).Keys
      ensures o.Ok? ==>
                && old(outbox) < outbox
                && outbox[|outbox| - 1] == ShipmentStatusChanged(id, rows[id].warehouse, rows[id].status)
    {
      hide ShipmentLife.Acts;
      ShipmentLife.TransitionDecides(Store(), id, action);
      if id !in rows {
        return Err(Fault(NotFound, 404));
      }
      var x := rows[id];
      match action {
        case StartPicking =>
          if x.status != Reserved { return Err(Fail(InvalidState)); }
          rows := rows[id := x.(status := PickingGoods)];
        case Pack =>
          if x.status != PickingGoods { return Err(Fail(InvalidState)); }
          rows := rows[id := x.(status := Packed)];
        case Ready =>
          if x.status != Packed { return Err(Fail(InvalidState)); }
          rows := rows[id := x.(status := ReadyForShipment)];
        case ShipOut =>
          if x.status != Packed && x.status != ReadyForShipment { return Err(Fail(InvalidState)); }
          rows := rows[id := x.(status := ShippingRequested)];
          Emit(ShipmentRequested(id, x.warehouse, x.reservation));
        case CancelShipment =>
          if x.status == ShippingRequested || x.status == Shipped || x.status == ShipmentCancelled {
            return Err(Fail(InvalidState));
          }
          rows := rows[id := x.(status := CancelPending)];
          Emit(ReservationCancellationRequested(x.reservation, x.warehouse, Some(id)));
      }
      assert S.Target(x.status, action).Some? && rows
          == old(rows)[id := x.(status := S.Target(x.status, action).value)];
      Emit(ShipmentStatusChanged(id, x.warehouse, rows[id].status));
      o := Ok(());
    }

    method Handle(e: Event) returns (o: Outcome<()>)
      modifies this
      ensures Follows(S.Handle(old(Store()), e), old(Store()), o, Store())
      ensures ShipmentLife.Hears(old(Store()), e, Resulting(o, Store()))
      ensures Stays(old(rows), rows) && rows.Keys == old(rows).Keys
      ensures outbox != old(outbox) ==>
                e.StockShipped? && old(rows)[e.shipment].status != Shipped && rows[e.shipment].status == Shipped
    {
      ShipmentLife.HandleDecides(Store(), e);
      if e.StockShipped? {
        if e.shipment !in rows {
          return Err(Fault(NotFound, 404));
        }
        var x := rows[e.shipment];
        if x.status != Shipped {
          rows := rows[e.shipment := x.(status := Shipped)];
          Emit(ShipmentCompleted(e.shipment, x.warehouse, x.reservation, x.items));
        }
      } else if e.ShipmentRejected? || e.StockReservationCancelled? || e.ReservationExpired? {
        EndShipments(e);
      }
      o := Ok(());
    }

    /** Every shipment of the reservation that has not been shipped ends. */
    method EndShipments(e: Event)
      requires e.ShipmentRejected? || e.StockReservationCancelled? || e.ReservationExpired?
      modifies this`rows
      ensures rows == S.EndAll(old(rows), e)
    {
      var todo := set id | id in rows && rows[id].reservation == e.reservation;
      while todo != {}
        invariant rows.Keys == old(rows).Keys
        invariant forall id | id in todo ::
            id in rows && rows[id] == old(rows)[id] && rows[id].reservation == e.reservation
        invariant forall id | id in rows && id !in todo :: rows[id] == S.EndAll(old(rows), e)[id]
      {
        var id :| id in todo;
        todo := todo - {id};
        var x := rows[id];
        if x.status != Shipped {
          rows := rows[id := S.Ended(x, e)];
        }
      }
    }
  }
}
