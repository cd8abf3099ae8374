/** The placement service: scoring of candidate locations and the life of a placement job. */
module PlacementRules {
  import opened Domain
  import opened Events
  import opened InventoryRules

  datatype Candidate = Candidate(
    id: Uuid, site: Site, current: Load, distance: real, status: LocationStatus)

  function MaxR(a: real, b: real): real {
    if a < b then b else a
  }

  function MinR(a: real, b: real): real {
    if b < a then b else a
  }

  predicate Suitable(c: Candidate, warehouse: Uuid, storage: StorageType, load: Load) {
    && c.site.warehouse == warehouse && c.site.zone == Storage && c.site.storage == storage
    && c.status != Blocked && c.status != Maintenance
    && c.site.limit.weight > 0.0 && c.site.limit.volume > 0.0
    && load.weight > 0.0 && load.volume > 0.0
    && !Exceeds(Plus(c.current, load), c.site.limit)
  }

  /** The distance of a location is not negative, so the quotient is defined. */
  function Nearness(distance: real): real {
    if 1.0 + distance / 10.0 == 0.0 then 0.0 else 30.0 / (1.0 + distance / 10.0)
  }

  function Score(c: Candidate, warehouse: Uuid, storage: StorageType, load: Load): Option<real> {
    if !Suitable(c, warehouse, storage, load) then None
    else
      var limit := c.site.limit;
      var occupancy := MaxR(c.current.weight / limit.weight, c.current.volume / limit.volume);
      var remaining := MinR((limit.weight - c.current.weight - load.weight) / limit.weight,
                            (limit.volume - c.current.volume - load.volume) / limit.volume);
      Some(40.0 + 30.0 * remaining + Nearness(c.distance) - 20.0 * occupancy)
  }

  /** Where the loop starts looking for a best score. */
  const FLOOR := -1000000000.0

  datatype Choice = Choice(best: real, chosen: Option<Candidate>)

  /** One round of the selection loop. */
  function Consider(so: Choice, c: Candidate, score: Option<real>): Choice {
    if score.Some?
        && (score.value > so.best || (score.value == so.best && so.chosen.Some? && c.id < so.chosen.value.id))
    then Choice(score.value, Some(c))
    else so
  }

  function Choose(cs: seq<Candidate>, warehouse: Uuid, storage: StorageType, load: Load): Choice {
    if cs == [] then Choice(FLOOR, None)
    else
      var c := cs[|cs| - 1];
      Consider(Choose(cs[..|cs| - 1], warehouse, storage, load), c, Score(c, warehouse, storage, load))
  }

  // ----- jobs -----

  datatype JobStatus = Waiting | Assigned | Placed | JobCancelled

  datatype JobError = NoRemainingStock | NoSuitableLocation | RefusedWith(code: Code)

  datatype Job = Job(
    warehouse: Uuid,
    unit: Load,
    storage: StorageType,
    status: JobStatus,
    attempts: nat,
    nextAttempt: Time,
    lastError: Option<JobError>,
    location: Option<Uuid>,
    score: Option<real>)

  datatype Store = Store(jobs: map<Uuid, Job>, outbox: seq<Event>)

  function Update(s: Store, stock: Uuid, job: Job): Store {
    s.(jobs := s.jobs[stock := job])
  }

  function Handle(s: Store, now: Time, e: Event): Store {
    match e
    case GoodsReceived(stock, _, w, _, unit, storage) =>
      if stock in s.jobs then s else Update(s, stock, Job(w, unit, storage, Waiting, 0, now, None, None, None))
    case PlacementRejected(stock, _, _, code) =>
      if stock in s.jobs && s.jobs[stock].status != Placed then
        Update(s, stock,
            s.jobs[stock].(status := Waiting, lastError := Some(RefusedWith(code)), nextAttempt := now + 3))
      else s
    case StockAdded(stock, _, _, _, _) =>
      if stock in s.jobs then Update(s, stock, s.jobs[stock].(status := Placed, lastError := None)) else s
    case _ => s
  }

  /** A lot as the inventory service answers it. */
  datatype LotView = LotView(quantity: int, location: Option<Uuid>)

  predicate Due(s: Store, now: Time, stock: Uuid) {
    stock in s.jobs && s.jobs[stock].status == Waiting && s.jobs[stock].nextAttempt <= now
  }

  /** What becomes of a due job once the lot has been looked up. */
  function Assign(s: Store, now: Time, stock: Uuid, lot: Reply<LotView>,
                  locations: Reply<seq<Candidate>>): Outcome<Store>
    requires stock in s.jobs
  {
    var job := s.jobs[stock];
    var view :- lot.Get();
    if view.quantity == 0 then Ok(Update(s, stock, job.(status := JobCancelled, lastError := Some(NoRemainingStock))))
    else if view.location.Some? then Ok(Update(s, stock, job.(status := Placed, lastError := None)))
    else
      var candidates :- locations.Get();
      var choice := Choose(candidates, job.warehouse, job.storage, Times(view.quantity, job.unit));
      if choice.chosen.None? then
        Ok(Update(s, stock,
            job.(attempts := job.attempts + 1, lastError := Some(NoSuitableLocation), nextAttempt := now + 10)))
      else
        var l := choice.chosen.value.id;
        var s1 := Update(s, stock, job.(status := Assigned, location := Some(l), score := Some(choice.best),
                                        attempts := job.attempts + 1));
        Ok(s1.(outbox := s1.outbox + [ProductPlacementAssigned(stock, job.warehouse, l, choice.best)]))
  }
}
