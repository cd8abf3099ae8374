/** Every command that reaches the inventory names rows and a location of its own warehouse:
    the lock it takes covers all it touches, and it is never refused for a wrong warehouse. */
module Addressing {
  import opened Domain
  import opened Events
  import opened InventoryRules
  import opened StockInvariant
  import opened InventorySafety
  import opened Effects
  import opened System
  import opened AgreementRuns
  import opened PlacementRuns
  import AgreementKept
  import EventLog
  import LocalDecisions
  import PlacementChoice
  import PlacementLog
  import SagaRuns
  import R = ReservationRules
  import S = ShipmentRules
  import P = PlacementRules
  import W = OccupancyRules

  predicate LotOf(db: Db, stock: Uuid, w: Uuid) {
    stock in db.lots && db.lots[stock].warehouse == w
  }

  // ----- receipts, jobs and assignments name the warehouse of their lot -----

  ghost predicate ReceiptsName(db: Db) {
    forall e | e in db.outbox && e.GoodsReceived? :: LotOf(db, e.stock, e.warehouse)
  }

  predicate LiesIn(world: map<Uuid, Site>, l: Uuid, w: Uuid) {
    l in world && world[l].warehouse == w
  }

  ghost predicate PlacementsName(world: map<Uuid, Site>, s: Sys) {
    && (forall id | id in s.place.jobs :: LotOf(s.inv, id, s.place.jobs[id].warehouse))
    && (forall e | e in s.place.outbox && e.ProductPlacementAssigned? ::
          LotOf(s.inv, e.stock, e.warehouse) && LiesIn(world, e.location, e.warehouse))
  }

  ghost predicate AllName(world: map<Uuid, Site>, s: Sys) {
    ReceiptsName(s.inv) && PlacementsName(world, s)
  }

  lemma LotStays(db: Db, after: Db, id: Uuid, w: Uuid)
    requires Grows(db, after)
    ensures LotOf(db, id, w) ==> LotOf(after, id, w)
  {
    assert id in db.lots ==> SameLot(db.lots[id], after.lots[id]);
  }

  lemma ReceiptsAfter(db: Db, after: Db)
    requires ReceiptsName(db) && PlacementLog.Settles(db, after) && Grows(db, after)
    ensures ReceiptsName(after)
  {
    assert db.outbox <= after.outbox;
    hide Grows;
    forall e | e in after.outbox && e.GoodsReceived?
      ensures LotOf(after, e.stock, e.warehouse)
    {
      var i :| 0 <= i < |after.outbox| && after.outbox[i] == e;
      if i < |db.outbox| {
        assert db.outbox[i] == e;
        LotStays(db, after, e.stock, e.warehouse);
      }
    }
  }

  // ----- the placement service moves -----

  lemma PlacementsStay(world: map<Uuid, Site>, s: Sys, t: Sys)
    requires PlacementsName(world, s) && t.place == s.place && Grows(s.inv, t.inv)
    ensures PlacementsName(world, t)
  {
    hide Grows;
    forall id | id in t.place.jobs
      ensures LotOf(t.inv, id, t.place.jobs[id].warehouse)
    {
      LotStays(s.inv, t.inv, id, s.place.jobs[id].warehouse);
    }
    forall e | e in t.place.outbox && e.ProductPlacementAssigned?
      ensures LotOf(t.inv, e.stock, e.warehouse) && LiesIn(world, e.location, e.warehouse)
    {
      LotStays(s.inv, t.inv, e.stock, e.warehouse);
    }
  }

  /** A new job is about the lot of the receipt. */
  lemma PlacementsAfterNews(world: map<Uuid, Site>, s: Sys, e: Event, t: Sys)
    requires AllName(world, s) && t.inv == s.inv && t.place == P.Handle(s.place, s.now, e)
    requires e.GoodsReceived? ==> e in s.inv.outbox
    ensures PlacementsName(world, t)
  {
  }

  /** An assignment names the warehouse of the job and a location that lies in it. */
  lemma PlacementsAfterFinish(world: map<Uuid, Site>, s: Sys, id: Uuid, lot: Reply<P.LotView>,
                              locations: Reply<seq<P.Candidate>>, t: Sys)
    requires PlacementsName(world, s) && id in s.place.jobs && t.inv == s.inv && Surveyed(world, locations)
    requires P.Assign(s.place, s.now, id, lot, locations) == Ok(t.place)
    ensures PlacementsName(world, t)
  {
    assert LotOf(s.inv, id, s.place.jobs[id].warehouse);
    if locations.Found? && lot.Found? {
      var job := s.place.jobs[id];
      ChosenLiesIn(world, locations.value, job.warehouse, job.storage, Times(lot.value.quantity, job.unit));
    }
    hide P.Choose, Times;
  }

  /** The chosen location is one of the candidates and lies in the warehouse of the job. */
  lemma ChosenLiesIn(world: map<Uuid, Site>, cs: seq<P.Candidate>, w: Uuid, storage: StorageType, load: Load)
    requires Surveyed(world, Found(cs))
    ensures var c := P.Choose(cs, w, storage, load).chosen; c.Some? ==> LiesIn(world, c.value.id, w)
  {
    PlacementChoice.ChooseIsBest(cs, w, storage, load);
  }

  /** Only events and finished jobs move the placement service. */
  lemma PlacementMoves(world: map<Uuid, Site>, s: Sys, a: Step)
    ensures var t := Next(world, s, a);
            t.place != s.place ==>
              && t.inv == s.inv
              && match a
                 case Deliver(Placements, ref, _) =>
                   ref.index < |Log(s, ref.source)| && t.place
                       == P.Handle(s.place, s.now, Log(s, ref.source)[ref.index])
                 case Finish(id, locations) =>
                   id in s.reading && id in s.place.jobs && Surveyed(world, locations)
                       && P.Assign(s.place, s.now, id, Found(s.reading[id]), locations) == Ok(t.place)
                 case _ => false
  {
    hide Commit, Proper, InventoryRules.Handle, Recognised, R.Create, R.Cancel, R.Handle, S.Create, S.Transition;
    hide S.Handle;
    hide P.Handle, P.Assign, W.Handle, W.SetStatus, HonestFor, P.Due;
  }

  lemma NamesNext(world: map<Uuid, Site>, s: Sys, a: Step)
    requires Good(world, s) && AllName(world, s)
    ensures AllName(world, Next(world, s, a))
  {
    var t := Next(world, s, a);
    Facts(world, s);
    hide *;
    NextTransacts(world, s, a);
    TransactsSettles(world, s.inv, t.inv);
    PlacementMoves(world, s, a);
    NamesParts(world, s);
    ReceiptsAfter(s.inv, t.inv);
    if t.place == s.place {
      PlacementsStay(world, s, t);
    } else {
      PlacementsMove(world, s, a);
    }
    NamesWhole(world, t);
  }

  lemma NamesParts(world: map<Uuid, Site>, s: Sys)
    requires AllName(world, s)
    ensures ReceiptsName(s.inv) && PlacementsName(world, s)
  {
  }

  lemma NamesWhole(world: map<Uuid, Site>, s: Sys)
    requires ReceiptsName(s.inv) && PlacementsName(world, s)
    ensures AllName(world, s)
  {
  }

  lemma PlacementsMove(world: map<Uuid, Site>, s: Sys, a: Step)
    requires Typed(s) && AllName(world, s) && Next(world, s, a).place != s.place
    ensures PlacementsName(world, Next(world, s, a))
  {
    var t := Next(world, s, a);
    PlacementMoves(world, s, a);
    hide Next, Typed, AllName, PlacementsName, P.Handle, P.Assign;
    match a
    case Deliver(Placements, ref, _) =>
      var e := Log(s, ref.source)[ref.index];
      AgreementKept.TypedOne(s, ref.source, e);
      PlacementsAfterNews(world, s, e, t);
    case Finish(id, locations) =>
      NamesParts(world, s);
      PlacementsAfterFinish(world, s, id, Found(s.reading[id]), locations, t);
    case _ =>
  }

  lemma {:induction false} RunNames(world: map<Uuid, Site>, s: Sys, steps: seq<Step>)
    requires Good(world, s) && AllName(world, s)
    ensures AllName(world, System.Run(world, s, steps))
    decreases |steps|
  {
    hide Next, Good, AllName;
    if steps != [] {
      NamesNext(world, s, steps[0]);
      GoodNext(world, s, steps[0]);
      RunNames(world, Next(world, s, steps[0]), steps[1..]);
    }
  }

  // ----- the theorem -----

  /** In every reachable state an assignment is about a lot and a location of its warehouse. */
  lemma AssignmentsLieIn(world: map<Uuid, Site>, now: Time, steps: seq<Step>, source: Service, j: nat)
    ensures var s := System.Run(world, Empty(world, now), steps);
            j < |Log(s, source)| && Log(s, source)[j].ProductPlacementAssigned? ==>
              var e := Log(s, source)[j]; LotOf(s.inv, e.stock, e.warehouse) && LiesIn(world, e.location, e.warehouse)
  {
    var s := System.Run(world, Empty(world, now), steps);
    EmptyAgrees(world, now);
    RunNames(world, Empty(world, now), steps);
    RunAgrees(world, Empty(world, now), steps);
    Facts(world, s);
    hide System.Run, Good, Next, Grows, EventLog.CapacityLogged, StockOk, LotOf, LiesIn;
    if j < |Log(s, source)| && Log(s, source)[j].ProductPlacementAssigned? {
      AgreementKept.TypedOne(s, source, Log(s, source)[j]);
    }
  }

  /** In every reachable state, every event that the inventory may consume is addressed to
      the warehouse of the rows it names: what `LocalDecisions` and `Serial` ask of a
      command holds of all of them. */
  lemma CommandsAreAddressed(world: map<Uuid, Site>, now: Time, steps: seq<Step>, source: Service, j: nat,
                             reply: Reply<Location>)
    ensures var s := System.Run(world, Empty(world, now), steps);
            j < |Log(s, source)| && Relevant(Log(s, source)[j]) ==>
              LocalDecisions.Addressed(s.inv, Consuming(s.now, Log(s, source)[j], reply), Log(s, source)[j].warehouse)
  {
    hide System.Run;
    SagaRuns.CommandsNameTheWarehouse(world, now, steps, source, j);
    AssignmentsLieIn(world, now, steps, source, j);
  }
}
