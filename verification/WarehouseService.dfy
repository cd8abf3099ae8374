/** The location rows of the warehouse service as they are updated in place. */
module WarehouseService {
  import opened Domain
  import opened Events
  import Occupancy
  import W = OccupancyRules

  class Locations {
    var rows: map<Uuid, W.Place>
    var outbox: seq<Event>

    function Store(): W.Store
      reads this
    {
      W.Store(rows, outbox)
    }

    constructor (sites: map<Uuid, Site>)
      ensures Store() == W.Store(map l | l in sites :: W.Place(sites[l], NO_LOAD, 0, Available), [])
    {
      rows := map l | l in sites :: W.Place(sites[l], NO_LOAD, 0, Available);
      outbox := [];
    }

    /** A capacity event moves a row forward only: the revision never falls, and an
        administrative block survives it. */
    method Handle(e: Event) returns (o: Outcome<()>)
      modifies this
      ensures match W.Handle(old(Store()), e) case Ok(s) => o == Ok(()) && Store() == s case Err(x) => o == Err(x)
      ensures o.Err? ==> Store() == old(Store())
      ensures forall l | l in old(rows) ::
                && l in rows && rows[l].revision >= old(rows)[l].revision
                && (old(rows)[l].status in {Blocked, Maintenance} ==> rows[l].status == old(rows)[l].status)
      ensures o.Ok? && e.LocationCapacityChanged? && e.revision > old(rows)[e.location].revision ==>
                && rows[e.location].current == e.load && rows[e.location].revision == e.revision
                && (old(rows)[e.location].status !in {Blocked, Maintenance} ==>
                      Occupancy.Shows(rows[e.location].status, e.load, rows[e.location].site.limit))
    {
      if !e.LocationCapacityChanged? {
        return Ok(());
      }
      if e.location !in rows {
        return Err(Fault(NotFound, 404));
      }
      var l := rows[e.location];
      o := Ok(());
      if e.revision <= l.revision {
        assert rows == rows[e.location := l];
        return;
      }
      l := l.(current := e.load, revision := e.revision);
      if !W.Closed(l.status) {
        l := l.(status := W.Occupancy(l.current, l.site.limit));
      }
      rows := rows[e.location := l];
    }

    method SetStatus(id: Uuid, status: LocationStatus) returns (o: Outcome<()>)
      modifies this
      ensures match W.SetStatus(old(Store()), id, status) case Ok(s) => o == Ok(())
                && Store() == s case Err(x) => o == Err(x)
      ensures o.Ok? ==>
                && (if status == Available then Occupancy.Shows(rows[id].status, rows[id].current, rows[id].site.limit)
                    else rows[id].status == status && status in {Blocked, Maintenance})
                && outbox == old(outbox)
                    + [WarehouseLocationStatusChanged(id, rows[id].site.warehouse, rows[id].status)]
                && rows[id] == old(rows)[id].(status := rows[id].status)
      ensures forall l | l in old(rows) && l != id :: l in rows && rows[l] == old(rows)[l]
      ensures o.Err? ==> Store() == old(Store())
    {
      if id !in rows {
        return Err(Fault(NotFound, 404));
      }
      var l := rows[id];
      if status != Available && status != Blocked && status != Maintenance {
        return Err(Fault(ValidationError, 400));
      }
      l := l.(status := if status == Available then W.Occupancy(l.current, l.site.limit) else status);
      rows := rows[id := l];
      outbox := outbox + [WarehouseLocationStatusChanged(id, l.site.warehouse, l.status)];
      o := Ok(());
    }
  }
}
