/** The placement service as it works: job rows updated in place and a search loop over
    the candidate locations. */
module PlacementService {
  import opened Domain
  import opened Events
  import P = PlacementRules
  import JobLife
  import PlacementChoice

  /** The search loop: the best eligible candidate, ties to the smallest id. */
  method Search(cs: seq<P.Candidate>, warehouse: Uuid, storage: StorageType, load: Load)
    returns (best: real, chosen: Option<P.Candidate>)
    ensures P.Choice(best, chosen) == P.Choose(cs, warehouse, storage, load)
    ensures PlacementChoice.Best(cs, warehouse, storage, load, P.Choice(best, chosen))
    ensures chosen.None? <==>
              forall c | c in cs && P.Score(c, warehouse, storage, load).Some? ::
                  P.Score(c, warehouse, storage, load).value <= P.FLOOR
  {
    best, chosen := P.FLOOR, None;
    for i := 0 to |cs|
      invariant P.Choice(best, chosen) == P.Choose(cs[..i], warehouse, storage, load)
    {
      var score := P.Score(cs[i], warehouse, storage, load);
      assert cs[..i + 1][..i] == cs[..i];
      if score.Some? && (score.value > best || (score.value == best && chosen.Some? && cs[i].id < chosen.value.id)) {
        best, chosen := score.value, Some(cs[i]);
      }
    }
    assert cs[..|cs|] == cs;
    PlacementChoice.ChooseIsBest(cs, warehouse, storage, load);
    PlacementChoice.NoneIsChosen(cs, warehouse, storage, load);
  }

  /** One assignment was emitted, of the lot to the best of the candidates for all its units. */
  ghost predicate AssignsBest(job: P.Job, stock: Uuid, lot: Reply<P.LotView>, locations: Reply<seq<P.Candidate>>,
                              log: seq<Event>, after: seq<Event>)
  {
    && lot.Found? && lot.value.quantity != 0 && lot.value.location.None? && locations.Found?
    && exists best, c: P.Candidate ::
         && after == log + [ProductPlacementAssigned(stock, job.warehouse, c.id, best)]
         && PlacementChoice.Best(locations.value, job.warehouse, job.storage, Times(lot.value.quantity, job.unit),
                                 P.Choice(best, Some(c)))
  }

  class Jobs {
    var jobs: map<Uuid, P.Job>
    var outbox: seq<Event>

    function Store(): P.Store
      reads this
    {
      P.Store(jobs, outbox)
    }

    constructor ()
      ensures Store() == P.Store(map[], [])
    {
      jobs, outbox := map[], [];
    }

    method Handle(now: Time, e: Event)
      modifies this`jobs
      ensures Store() == P.Handle(old(Store()), now, e)
      ensures JobLife.Hears(old(Store()), now, e, Store())
      ensures forall id | id in old(jobs) ::
                && id in jobs
                && jobs[id].warehouse == old(jobs)[id].warehouse && jobs[id].unit == old(jobs)[id].unit
                && jobs[id].storage == old(jobs)[id].storage
                && (old(jobs)[id].status == P.Placed ==> jobs[id].status == P.Placed)
    {
      JobLife.HandleDecides(Store(), now, e);
      match e {
        case GoodsReceived(stock, _, w, _, unit, storage) =>
          if stock !in jobs {
            jobs := jobs[stock := P.Job(w, unit, storage, P.Waiting, 0, now, None, None, None)];
          }
        case PlacementRejected(stock, _, _, code) =>
          if stock in jobs && jobs[stock].status != P.Placed {
            jobs := jobs[stock :=
                jobs[stock].(status := P.Waiting, lastError := Some(P.RefusedWith(code)), nextAttempt := now + 3)];
          }
        case StockAdded(stock, _, _, _, _) =>
          if stock in jobs {
            jobs := jobs[stock := jobs[stock].(status := P.Placed, lastError := None)];
          }
        case _ =>
      }
    }

    /** Works on one due job whose row is locked. */
    method Assign(now: Time, stock: Uuid, lot: Reply<P.LotView>,
                  locations: Reply<seq<P.Candidate>>) returns (o: Outcome<()>)
      requires stock in jobs
      modifies this
      ensures match P.Assign(old(Store()), now, stock, lot, locations)
              case Ok(s) => o == Ok(()) && Store() == s
              case Err(e) => o == Err(e) && Store() == old(Store())
      ensures JobLife.Works(old(Store()), now, stock, lot, locations, Resulting(o, Store()))
      ensures jobs.Keys == old(jobs).Keys && forall id | id in jobs && id != stock :: jobs[id] == old(jobs)[id]
      ensures outbox == old(outbox) || AssignsBest(old(jobs)[stock], stock, lot, locations, old(outbox), outbox)
    {
      JobLife.AssignDecides(Store(), now, stock, lot, locations);
      var job := jobs[stock];
      var view := lot.Get();
      if view.Err? {
        return Err(view.error);
      }
      var quantity := view.value.quantity;
      if quantity == 0 {
        jobs := jobs[stock := job.(status := P.JobCancelled, lastError := Some(P.NoRemainingStock))];
        return Ok(());
      }
      if view.value.location.Some? {
        jobs := jobs[stock := job.(status := P.Placed, lastError := None)];
        return Ok(());
      }
      var candidates := locations.Get();
      if candidates.Err? {
        return Err(candidates.error);
      }
      var best, chosen := Search(candidates.value, job.warehouse, job.storage, Times(quantity, job.unit));
      if chosen.None? {
        jobs := jobs[stock :=
            job.(attempts := job.attempts + 1, lastError := Some(P.NoSuitableLocation), nextAttempt := now + 10)];
        return Ok(());
      }
      jobs := jobs[stock := job.(status := P.Assigned, location := Some(chosen.value.id), score := Some(best),
                                 attempts := job.attempts + 1)];
      outbox := outbox + [ProductPlacementAssigned(stock, job.warehouse, chosen.value.id, best)];
      PlacementChoice.ChooseIsBest(candidates.value, job.warehouse, job.storage, Times(quantity, job.unit));
      assert PlacementChoice.Best(locations.value, job.warehouse, job.storage, Times(lot.value.quantity, job.unit),
                                  P.Choice(best, Some(chosen.value)));
      o := Ok(());
    }
  }
}
