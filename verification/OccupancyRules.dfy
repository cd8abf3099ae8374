/** The occupancy projection of the warehouse service. */
module OccupancyRules {
  import opened Domain
  import opened Events

  datatype Place = Place(site: Site, current: Load, revision: nat, status: LocationStatus)

  datatype Store = Store(rows: map<Uuid, Place>, outbox: seq<Event>)

  function Occupancy(current: Load, limit: Load): LocationStatus {
    if current.weight >= limit.weight || current.volume >= limit.volume then Full
    else if current.weight > 0.0 || current.volume > 0.0 then PartiallyOccupied
    else Available
  }

  predicate Closed(status: LocationStatus) {
    status == Blocked || status == Maintenance
  }

  /** The effect of one capacity event on the location it is about. */
  function Project(x: Place, load: Load, revision: nat): Place {
    if revision <= x.revision then x
    else
      x.(current := load, revision := revision,
         status := if Closed(x.status) then x.status else Occupancy(load, x.site.limit))
  }

  function Handle(s: Store, e: Event): Outcome<Store> {
    if !e.LocationCapacityChanged? then Ok(s)
    else if e.location !in s.rows then Err(Fault(NotFound, 404))
    else Ok(s.(rows := s.rows[e.location := Project(s.rows[e.location], e.load, e.revision)]))
  }

  function SetStatus(s: Store, id: Uuid, status: LocationStatus): Outcome<Store> {
    if id !in s.rows then Err(Fault(NotFound, 404))
    else if status != Available && !Closed(status) then Err(Fault(ValidationError, 400))
    else
      var x := s.rows[id];
      var y := x.(status := if status == Available then Occupancy(x.current, x.site.limit) else status);
      Ok(Store(s.rows[id := y], s.outbox + [WarehouseLocationStatusChanged(id, x.site.warehouse, y.status)]))
  }
}
