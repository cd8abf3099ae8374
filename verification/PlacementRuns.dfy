/** Placement over every run: no lot without a location is ever forgotten. */
module PlacementRuns {
  import opened Domain
  import opened Events
  import opened InventoryRules
  import opened StockInvariant
  import opened InventorySafety
  import opened Effects
  import opened System
  import opened SystemLogs
  import opened AgreementRuns
  import opened PlacementLog
  import opened Placement
  import AgreementKept
  import EventLog
  import R = ReservationRules
  import S = ShipmentRules
  import P = PlacementRules
  import W = OccupancyRules

  ghost predicate Placing(world: map<Uuid, Site>, s: Sys) {
    Good(world, s) && JobsOk(s) && PlacedOnce(s.inv)
  }

  lemma Facts(world: map<Uuid, Site>, s: Sys)
    requires Good(world, s)
    ensures MarksReal(s) && Typed(s) && StockOk(s.inv) && EventLog.CapacityLogged(s.inv)
  {
  }

  lemma TransactsSettles(world: map<Uuid, Site>, db: Db, after: Db)
    requires StockOk(db) && EventLog.CapacityLogged(db) && Transacts(world, db, after)
    ensures Settles(db, after) && Grows(db, after)
  {
    hide StockOk, EventLog.CapacityLogged, Settles, Grows, Commit, HonestFor;
    NothingSettles(db);
    GrowsReflexive(db);
    if after != db {
      var t :| HonestFor(world, db, t) && after == Commit(db, t);
      TransactionSettles(db, t);
      TransactionEffect(db, t);
    }
  }

  /** Steps of neither the placement service nor the consumers of its events. */
  predicate Aloof(s: Sys, a: Step) {
    match a
    case Begin(_) => false
    case Finish(_, _) => false
    case Abort(_) => false
    case Deliver(consumer, ref, _) => consumer != Placements && !(consumer == Inventory && ref.source == Placements)
    case _ => true
  }

  lemma AloofFrame(world: map<Uuid, Site>, s: Sys, a: Step)
    requires Aloof(s, a)
    ensures var t := Next(world, s, a); t.place == s.place && t.reading == s.reading && SameMarks(s, t)
  {
    hide Commit, HonestFor, R.Create, R.Cancel, S.Create, S.Transition, P.Assign, W.SetStatus, Proper, P.Due;
    hide Recognised;
    hide InventoryRules.Handle, R.Handle, S.Handle, P.Handle, W.Handle;
  }

  lemma AssignmentDelivered(world: map<Uuid, Site>, s: Sys, ref: Ref, reply: Reply<Location>)
    requires JobsOk(s) && MarksReal(s) && Typed(s) && StockOk(s.inv) && ref.source == Placements
    requires var t := DeliverTo(world, s, Inventory, ref, reply); Grows(s.inv, t.inv) && Welcomed(s.inv, t.inv)
    ensures JobsOk(DeliverTo(world, s, Inventory, ref, reply))
  {
    hide JobsOk, MarksReal, StockOk, Typed, Grows, Welcomed, InventoryRules.Handle, HonestFor;
    var t := DeliverTo(world, s, Inventory, ref, reply);
    if t != s {
      AgreementKept.TypedOne(s, Placements, Log(s, Placements)[ref.index]);
      JobsAfterAssignment(s, ref, reply, t);
    }
  }

  lemma NewsDelivered(world: map<Uuid, Site>, s: Sys, ref: Ref, reply: Reply<Location>)
    requires JobsOk(s) && PlacedOnce(s.inv) && Typed(s) && StockOk(s.inv)
    ensures JobsOk(DeliverTo(world, s, Placements, ref, reply))
  {
    hide JobsOk, PlacedOnce, StockOk, Typed, P.Handle;
    var t := DeliverTo(world, s, Placements, ref, reply);
    if t != s { JobsAfterNews(s, ref, t); }
  }

  lemma Assigned(world: map<Uuid, Site>, s: Sys, stock: Uuid, locations: Reply<seq<P.Candidate>>)
    requires JobsOk(s) && MarksReal(s) && StockOk(s.inv)
    ensures JobsOk(Next(world, s, Finish(stock, locations)))
  {
    hide JobsOk, MarksReal, StockOk, P.Assign, Surveyed;
    if stock in s.reading && stock in s.place.jobs && Surveyed(world, locations) {
      if P.Assign(s.place, s.now, stock, Found(s.reading[stock]), locations).Ok? {
        JobsAfterFinish(s, stock, locations, Next(world, s, Finish(stock, locations)));
      } else {
        JobsAfterAbort(s, stock, Next(world, s, Finish(stock, locations)));
      }
    }
  }

  lemma JobsNext(world: map<Uuid, Site>, s: Sys, a: Step)
    requires Good(world, s) && JobsOk(s) && PlacedOnce(s.inv)
    ensures JobsOk(Next(world, s, a)) && PlacedOnce(Next(world, s, a).inv)
  {
    var t := Next(world, s, a);
    Facts(world, s);
    hide Good, MarksReal, StockOk, EventLog.CapacityLogged, Typed, PlacedOnce, JobsOk, Transacts, Settles, Welcomed;
    hide Grows, P.Due;
    NextTransacts(world, s, a);
    TransactsSettles(world, s.inv, t.inv);
    PlacedOnceKept(s.inv, t.inv);
    if Aloof(s, a) {
      hide Next;
      AloofFrame(world, s, a);
      JobsAfterMove(s, t);
    } else {
      hide DeliverTo;
      match a
      case Begin(stock) => if t != s { JobsAfterBegin(s, stock, t); }
      case Finish(stock, ls) => Assigned(world, s, stock, ls);
      case Abort(stock) => JobsAfterAbort(s, stock, t);
      case Deliver(consumer, ref, reply) =>
        if consumer == Inventory {
          AssignmentDelivered(world, s, ref, reply);
        } else {
          NewsDelivered(world, s, ref, reply);
        }
    }
  }

  lemma {:induction false} RunPlacing(world: map<Uuid, Site>, s: Sys, steps: seq<Step>)
    requires Placing(world, s)
    ensures Placing(world, System.Run(world, s, steps))
    decreases |steps|
  {
    hide Next, Good, JobsOk, PlacedOnce;
    if steps != [] {
      JobsNext(world, s, steps[0]);
      AgreementRuns.GoodNext(world, s, steps[0]);
      RunPlacing(world, Next(world, s, steps[0]), steps[1..]);
    }
  }

  lemma EmptyPlacing(world: map<Uuid, Site>, now: Time)
    ensures Placing(world, Empty(world, now))
  {
    EmptyAgrees(world, now);
    hide Good;
  }

  // ----- the theorems -----

  /** In every reachable state a lot with units and without a location has a receipt that
      is still to be processed, or a waiting job, or an assigned job whose assignment or
      refusal is still to be processed; a finished job means that the lot is placed. */
  lemma NoLotIsLost(world: map<Uuid, Site>, now: Time, steps: seq<Step>, id: Uuid)
    ensures var s := System.Run(world, Empty(world, now), steps);
            && Tracked(s, id)
            && (id in s.place.jobs && s.place.jobs[id].status == P.Placed ==> IsPlaced(s.inv, id))
  {
    var s := System.Run(world, Empty(world, now), steps);
    EmptyPlacing(world, now);
    RunPlacing(world, Empty(world, now), steps);
    hide System.Run, Good, PlacedOnce, ReceiptPending, AnswerPending;
    assert id in s.place.jobs ==> JobTrue(s, id);
  }

  predicate IsShelved(log: seq<Event>, i: nat, id: Uuid) {
    i < |log| && log[i].StockAdded? && log[i].stock == id
  }

  /** A lot is given its location by placement at most once, over any number of
      assignments, and stays there. */
  lemma PlacedAtMostOnce(world: map<Uuid, Site>, now: Time, steps: seq<Step>, more: seq<Step>, id: Uuid)
    ensures var s := System.Run(world, Empty(world, now), steps);
            var t := System.Run(world, s, more);
            && (forall i: nat, k: nat | IsShelved(t.inv.outbox, i, id) && IsShelved(t.inv.outbox, k, id) :: i == k)
            && (IsPlaced(s.inv, id) ==> IsPlaced(t.inv, id) && t.inv.lots[id].location == s.inv.lots[id].location)
            && forall i: nat | IsShelved(s.inv.outbox, i, id) ::
                 id in t.inv.lots && t.inv.lots[id].location == Some(s.inv.outbox[i].location)
  {
    var s := System.Run(world, Empty(world, now), steps);
    var t := System.Run(world, s, more);
    hide Next, Good, JobsOk;
    EmptyPlacing(world, now);
    RunPlacing(world, Empty(world, now), steps);
    RunPlacing(world, s, more);
    RunAgrees(world, s, more);
    if id in s.inv.lots { assert SameLot(s.inv.lots[id], t.inv.lots[id]); }
    assert s.inv.outbox <= t.inv.outbox;
    hide Grows, System.Run;
    forall i: nat | IsShelved(s.inv.outbox, i, id)
      ensures id in t.inv.lots && t.inv.lots[id].location == Some(s.inv.outbox[i].location)
    {
      assert t.inv.outbox[i] in t.inv.outbox;
    }
  }
}
