/** The life of a placement job in plain terms: what opens, reopens and closes it, and what
    working on it changes and emits. */
module JobLife {
  import opened Domain
  import opened Events
  import P = PlacementRules
  import PlacementChoice

  // ----- events -----

  /** Nothing has been done for the lot yet. */
  predicate IsOpened(x: P.Job, e: Event, now: Time) {
    && e.GoodsReceived? && x.warehouse == e.warehouse && x.unit == e.unit && x.storage == e.storage
    && x.status == P.Waiting && x.attempts == 0 && x.nextAttempt == now
    && x.lastError.None? && x.location.None? && x.score.None?
  }

  /** Work on the lot is due again three seconds after a refusal. */
  predicate IsReopened(x: P.Job, y: P.Job, e: Event, now: Time) {
    && e.PlacementRejected?
    && y == P.Job(x.warehouse, x.unit, x.storage, P.Waiting, x.attempts, now + 3, Some(P.RefusedWith(e.reason)),
                  x.location, x.score)
  }

  predicate IsClosed(x: P.Job, y: P.Job) {
    y == P.Job(x.warehouse, x.unit, x.storage, P.Placed, x.attempts, x.nextAttempt, None, x.location, x.score)
  }

  ghost predicate Hears(before: P.Store, now: Time, e: Event, after: P.Store) {
    && after.outbox == before.outbox
    && (forall id | id in before.jobs :: id in after.jobs)
    && (forall id | id in after.jobs && id !in before.jobs ::
        e.GoodsReceived? && e.stock == id && IsOpened(after.jobs[id], e, now))
    && (e.GoodsReceived? ==> e.stock in after.jobs)
    && (forall id | id in before.jobs ::
          var x, y := before.jobs[id], after.jobs[id];
          if e.PlacementRejected? && e.stock == id && x.status != P.Placed then IsReopened(x, y, e, now)
          else if e.StockAdded? && e.stock == id then IsClosed(x, y)
          else y == x)
  }

  /** A receipt opens a job once, a refusal reopens one that is not placed, and the placement
      closes it; nothing else changes a job. */
  lemma HandleDecides(st: P.Store, now: Time, e: Event)
    ensures Hears(st, now, e, P.Handle(st, now, e))
  {
  }

  lemma DueMeans(st: P.Store, now: Time, stock: Uuid)
    ensures P.Due(st, now, stock) <==>
              stock in st.jobs && st.jobs[stock].status == P.Waiting && st.jobs[stock].nextAttempt <= now
  {
  }

  // ----- work -----

  /** The job after it has been worked on. */
  function Worked(x: P.Job, status: P.JobStatus, error: Option<P.JobError>, attempts: nat, next: Time,
                  location: Option<Uuid>, score: Option<real>): P.Job {
    P.Job(x.warehouse, x.unit, x.storage, status, attempts, next, error, location, score)
  }

  /** The load of `n` units. */
  predicate IsLoad(load: Load, n: int, unit: Load) {
    load.weight == n as real * unit.weight && load.volume == n as real * unit.volume
  }

  ghost predicate Works(before: P.Store, now: Time, stock: Uuid, lot: Reply<P.LotView>,
                        locations: Reply<seq<P.Candidate>>,
                        o: Outcome<P.Store>)
    requires stock in before.jobs
  {
    var x := before.jobs[stock];
    match lot
    case Missing => o == Err(Fault(NotFound, 404))
    case Refused => o == Err(Fault(DependencyUnavailable, 503))
    case NoAnswer => o == Err(Broken(Unreachable))
    case Found(view) =>
      if view.quantity == 0 then
        Becomes(before, stock,
            Worked(x, P.JobCancelled, Some(P.NoRemainingStock), x.attempts, x.nextAttempt, x.location, x.score),
                [], o)
      else if view.location.Some? then
        Becomes(before, stock, Worked(x, P.Placed, None, x.attempts, x.nextAttempt, x.location, x.score), [], o)
      else
        match locations
        case Missing => o == Err(Fault(NotFound, 404))
        case Refused => o == Err(Fault(DependencyUnavailable, 503))
        case NoAnswer => o == Err(Broken(Unreachable))
        case Found(cs) => exists load, choice :: Chooses(before, now, stock, view.quantity, cs, load, choice, o)
  }

  ghost predicate Becomes(before: P.Store, stock: Uuid, y: P.Job, sent: seq<Event>, o: Outcome<P.Store>) {
    o == Ok(P.Store(before.jobs[stock := y], before.outbox + sent))
  }

  /** The best location for all units of the lot is assigned; without one, the job is tried
      again after ten seconds. */
  ghost predicate Chooses(before: P.Store, now: Time, stock: Uuid, n: int, cs: seq<P.Candidate>, load: Load,
                          choice: P.Choice, o: Outcome<P.Store>)
    requires stock in before.jobs
  {
    var x := before.jobs[stock];
    && IsLoad(load, n, x.unit)
    && PlacementChoice.Best(cs, x.warehouse, x.storage, load, choice)
    && match choice.chosen
       case None =>
         Becomes(before, stock,
             Worked(x, x.status, Some(P.NoSuitableLocation), x.attempts + 1, now + 10, x.location, x.score), [], o)
       case Some(c) =>
         Becomes(before, stock,
                 Worked(x, P.Assigned, x.lastError, x.attempts + 1, x.nextAttempt, Some(c.id), Some(choice.best)),
                 [ProductPlacementAssigned(stock, x.warehouse, c.id, choice.best)], o)
  }

  lemma AssignDecides(st: P.Store, now: Time, stock: Uuid, lot: Reply<P.LotView>, locations: Reply<seq<P.Candidate>>)
    requires stock in st.jobs
    ensures Works(st, now, stock, lot, locations, P.Assign(st, now, stock, lot, locations))
  {
    assert st.outbox + [] == st.outbox;
    if lot.Found? && lot.value.quantity != 0 && lot.value.location.None? && locations.Found? {
      var x, n := st.jobs[stock], lot.value.quantity;
      var load := Times(n, x.unit);
      var choice := P.Choose(locations.value, x.warehouse, x.storage, load);
      PlacementChoice.ChooseIsBest(locations.value, x.warehouse, x.storage, load);
      hide P.Choose, PlacementChoice.Best;
      assert IsLoad(load, n, x.unit);
      assert Chooses(st, now, stock, n, locations.value, load, choice, P.Assign(st, now, stock, lot, locations));
    }
    hide P.Choose;
  }
}
