/** The occupancy projection against the capacity ledger, in every reachable state. */
module OccupancyRuns {
  import opened Domain
  import opened Events
  import opened InventoryRules
  import opened InventorySafety
  import opened Totals
  import opened LedgerInvariant
  import opened EventLog
  import opened Occupancy
  import opened System
  import opened SystemLogs
  import opened Agreement
  import opened AgreementRuns
  import AgreementKept
  import R = ReservationRules
  import S = ShipmentRules
  import P = PlacementRules
  import W = OccupancyRules

  // ----- the capacity events of one location -----

  predicate IsReport(log: seq<Event>, i: nat, l: Uuid) {
    i < |log| && AboutLocation(log[i], l)
  }

  lemma {:induction false} CountGrows(log: seq<Event>, i: nat, k: nat, l: Uuid)
    requires i <= k <= |log|
    ensures CountCapacity(log[..i], l) <= CountCapacity(log[..k], l)
    decreases k - i
  {
    if i < k {
      CountGrows(log, i, k - 1, l);
      assert log[..k][..k - 1] == log[..k - 1];
    }
  }

  lemma ReportCounts(log: seq<Event>, i: nat, l: Uuid)
    requires Numbered(log) && IsReport(log, i, l)
    ensures log[i].revision == CountCapacity(log[..i + 1], l) == CountCapacity(log[..i], l) + 1
  {
    assert log[..i + 1][..i] == log[..i];
  }

  lemma WholeLog(log: seq<Event>, i: nat, l: Uuid)
    requires i <= |log|
    ensures CountCapacity(log[..i], l) <= CountCapacity(log, l)
  {
    CountGrows(log, i, |log|, l);
    assert log[..|log|] == log;
  }

  /** Later reports have higher revisions, and none is ahead of the count. */
  lemma ReportsAscend(log: seq<Event>, i: nat, k: nat, l: Uuid)
    requires Numbered(log) && IsReport(log, i, l) && IsReport(log, k, l) && i < k
    ensures log[i].revision < log[k].revision <= CountCapacity(log, l)
  {
    hide CountCapacity, Numbered;
    ReportCounts(log, i, l);
    ReportCounts(log, k, l);
    CountGrows(log, i + 1, k, l);
    WholeLog(log, k + 1, l);
  }

  lemma ReportBehindCount(log: seq<Event>, i: nat, l: Uuid)
    requires Numbered(log) && IsReport(log, i, l)
    ensures 0 < log[i].revision <= CountCapacity(log, l)
  {
    hide CountCapacity, Numbered;
    ReportCounts(log, i, l);
    WholeLog(log, i + 1, l);
  }

  /** The newest content of the log is its last report. */
  lemma {:induction false} LastReport(log: seq<Event>, l: Uuid)
    requires LastCapacity(log, l).Some?
    ensures exists i: nat :: IsReport(log, i, l) && LastCapacity(log, l).value == (log[i].load, log[i].revision)
    decreases |log|
  {
    var n := |log| - 1;
    if AboutLocation(log[n], l) {
      assert IsReport(log, n, l);
    } else {
      LastReport(log[..n], l);
      var i: nat :| IsReport(log[..n], i, l) && LastCapacity(log[..n], l).value
          == (log[..n][i].load, log[..n][i].revision);
      assert IsReport(log, i, l);
    }
  }

  // ----- the invariant -----

  /** The row of a location holds the newest report it has consumed, and its status is
      administrative or exactly its occupancy. */
  ghost predicate PlaceTrue(world: map<Uuid, Site>, s: Sys, l: Uuid)
    requires l in s.ware.rows
  {
    var x := s.ware.rows[l];
    && l in world && x.site == world[l]
    && (W.Closed(x.status) || x.status == W.Occupancy(x.current, x.site.limit))
    && (if x.revision == 0 then x.current == NO_LOAD
        else exists i: nat :: && IsReport(s.inv.outbox, i, l) && Done(s, Warehouses, Inventory, i)
                              && s.inv.outbox[i].load == x.current && s.inv.outbox[i].revision == x.revision)
  }

  /** A report that has been consumed is not newer than its row. */
  ghost predicate ReportConsumed(s: Sys, i: nat)
    requires i < |s.inv.outbox|
  {
    var e := s.inv.outbox[i];
    e.LocationCapacityChanged? && Done(s, Warehouses, Inventory, i) ==>
      e.location in s.ware.rows && e.revision <= s.ware.rows[e.location].revision
  }

  ghost predicate PlacesOk(world: map<Uuid, Site>, s: Sys) {
    && (forall l | l in s.ware.rows :: PlaceTrue(world, s, l))
    && (forall i | 0 <= i < |s.inv.outbox| :: ReportConsumed(s, i))
  }

  // ----- every step -----

  /** The warehouse service consumed nothing of the inventory and changed no row. */
  lemma PlacesStay(world: map<Uuid, Site>, s: Sys, t: Sys)
    requires PlacesOk(world, s) && MarksReal(s) && t.ware.rows == s.ware.rows && s.inv.outbox <= t.inv.outbox
    requires forall i | 0 <= i :: Done(t, Warehouses, Inventory, i) <==> Done(s, Warehouses, Inventory, i)
    ensures PlacesOk(world, t)
  {
    forall l | l in t.ware.rows
      ensures PlaceTrue(world, t, l)
    {
      assert PlaceTrue(world, s, l);
      if s.ware.rows[l].revision != 0 {
        var i: nat :| IsReport(s.inv.outbox, i, l) && Done(s, Warehouses, Inventory, i)
          && s.inv.outbox[i].load == s.ware.rows[l].current && s.inv.outbox[i].revision == s.ware.rows[l].revision;
        assert IsReport(t.inv.outbox, i, l) && Done(t, Warehouses, Inventory, i);
      }
    }
    forall i | 0 <= i < |t.inv.outbox|
      ensures ReportConsumed(t, i)
    {
      if i < |s.inv.outbox| {
        assert ReportConsumed(s, i) && t.inv.outbox[i] == s.inv.outbox[i];
      } else {
        assert !Done(s, Warehouses, Inventory, i);
      }
    }
  }

  lemma AfterStatus(world: map<Uuid, Site>, s: Sys, l: Uuid, status: LocationStatus, t: Sys)
    requires PlacesOk(world, s)
    requires W.SetStatus(s.ware, l, status).Ok? && t == s.(ware := W.SetStatus(s.ware, l, status).value)
    ensures PlacesOk(world, t)
  {
    forall x | x in t.ware.rows ensures PlaceTrue(world, t, x) { assert PlaceTrue(world, s, x); }
    forall i | 0 <= i < |t.inv.outbox| ensures ReportConsumed(t, i) { assert ReportConsumed(s, i); }
  }

  lemma AfterReport(world: map<Uuid, Site>, s: Sys, i: nat, t: Sys)
    requires PlacesOk(world, s) && i < |s.inv.outbox| && s.inv.outbox[i].LocationCapacityChanged?
    requires Numbered(s.inv.outbox)
    requires var o := W.Handle(s.ware, s.inv.outbox[i]);
             o.Ok? && t == s.(ware := o.value, done := s.done + {Mark(Warehouses, Ref(Inventory, i))})
    ensures PlacesOk(world, t)
  {
    var e := s.inv.outbox[i];
    assert IsReport(t.inv.outbox, i, e.location) && Done(t, Warehouses, Inventory, i);
    ReportBehindCount(s.inv.outbox, i, e.location);
    hide Numbered, W.Occupancy, W.Closed;
    forall l | l in t.ware.rows
      ensures PlaceTrue(world, t, l)
    {
      assert PlaceTrue(world, s, l);
      if s.ware.rows[l].revision != 0 {
        var k: nat :| IsReport(s.inv.outbox, k, l) && Done(s, Warehouses, Inventory, k)
          && s.inv.outbox[k].load == s.ware.rows[l].current && s.inv.outbox[k].revision == s.ware.rows[l].revision;
        assert IsReport(t.inv.outbox, k, l) && Done(t, Warehouses, Inventory, k);
      }
    }
    forall k | 0 <= k < |t.inv.outbox|
      ensures ReportConsumed(t, k)
    {
      assert ReportConsumed(s, k);
    }
  }

  lemma AfterWarehouseNews(world: map<Uuid, Site>, s: Sys, ref: Ref, t: Sys)
    requires PlacesOk(world, s) && MarksReal(s) && Typed(s) && Numbered(s.inv.outbox)
    requires ref.index < |Log(s, ref.source)|
    requires var o := W.Handle(s.ware, Log(s, ref.source)[ref.index]);
             o.Ok? && t == s.(ware := o.value, done := s.done + {Mark(Warehouses, ref)})
    ensures PlacesOk(world, t)
  {
    var e := Log(s, ref.source)[ref.index];
    AgreementKept.TypedOne(s, ref.source, e);
    if e.LocationCapacityChanged? {
      AfterReport(world, s, ref.index, t);
    } else {
      hide Numbered, Typed;
      OtherNews(world, s, ref, t);
    }
  }

  lemma OtherNews(world: map<Uuid, Site>, s: Sys, ref: Ref, t: Sys)
    requires PlacesOk(world, s) && ref.index < |Log(s, ref.source)|
    requires !Log(s, ref.source)[ref.index].LocationCapacityChanged?
    requires t == s.(done := s.done + {Mark(Warehouses, ref)})
    ensures PlacesOk(world, t)
  {
    forall l | l in t.ware.rows
      ensures PlaceTrue(world, t, l)
    {
      assert PlaceTrue(world, s, l);
      if s.ware.rows[l].revision != 0 {
        var k: nat :| IsReport(s.inv.outbox, k, l) && Done(s, Warehouses, Inventory, k)
          && s.inv.outbox[k].load == s.ware.rows[l].current && s.inv.outbox[k].revision == s.ware.rows[l].revision;
        assert Done(t, Warehouses, Inventory, k);
      }
    }
    forall k | 0 <= k < |t.inv.outbox| ensures ReportConsumed(t, k) { assert ReportConsumed(s, k); }
  }

  /** Only an administrator and the warehouse's own consumer touch the locations. */
  lemma Elsewhere(world: map<Uuid, Site>, s: Sys, a: Step)
    requires !a.Administer? && !(a.Deliver? && a.consumer == Warehouses)
    ensures var t := Next(world, s, a);
            t.ware == s.ware && forall i | 0 <= i :: Done(t, Warehouses, Inventory, i) <==>
                Done(s, Warehouses, Inventory, i)
  {
    hide Commit, HonestFor, R.Create, R.Cancel, S.Create, S.Transition, P.Assign, W.SetStatus, Proper, P.Due;
    hide Recognised;
    hide InventoryRules.Handle, R.Handle, S.Handle, P.Handle, W.Handle;
  }

  lemma DeliveredHere(world: map<Uuid, Site>, s: Sys, ref: Ref, reply: Reply<Location>)
    requires MarksReal(s) && Typed(s) && Numbered(s.inv.outbox) && PlacesOk(world, s)
    ensures PlacesOk(world, DeliverTo(world, s, Warehouses, ref, reply))
  {
    hide PlacesOk, MarksReal, Typed, Numbered, W.Handle;
    var t := DeliverTo(world, s, Warehouses, ref, reply);
    if t != s { AfterWarehouseNews(world, s, ref, t); }
  }

  lemma GoodFacts(world: map<Uuid, Site>, s: Sys)
    requires Good(world, s)
    ensures MarksReal(s) && Typed(s) && CapacityLogged(s.inv) && Numbered(s.inv.outbox)
  {
  }

  lemma PlacesNext(world: map<Uuid, Site>, s: Sys, a: Step)
    requires Good(world, s) && PlacesOk(world, s)
    ensures PlacesOk(world, Next(world, s, a))
  {
    GoodFacts(world, s);
    hide Good, MarksReal, Typed, PlacesOk, Numbered, CapacityLogged, DeliverTo;
    if a.Administer? {
      hide W.SetStatus;
      if W.SetStatus(s.ware, a.location, a.status).Ok? {
        AfterStatus(world, s, a.location, a.status, Next(world, s, a));
      }
    } else if a.Deliver? && a.consumer == Warehouses {
      DeliveredHere(world, s, a.ref, a.reply);
    } else {
      hide Next;
      Elsewhere(world, s, a);
      LogKept(world, s, a);
      PlacesStay(world, s, Next(world, s, a));
    }
  }

  lemma LogKept(world: map<Uuid, Site>, s: Sys, a: Step)
    requires Good(world, s)
    ensures s.inv.outbox <= Next(world, s, a).inv.outbox
  {
    hide Next, Sound, Agree;
    AgreeNext(world, s, a);
  }

  lemma {:induction false} RunPlaces(world: map<Uuid, Site>, s: Sys, steps: seq<Step>)
    requires Good(world, s) && PlacesOk(world, s)
    ensures Good(world, System.Run(world, s, steps)) && PlacesOk(world, System.Run(world, s, steps))
    decreases |steps|
  {
    hide Next, Good, PlacesOk;
    if steps != [] {
      PlacesNext(world, s, steps[0]);
      AgreementRuns.GoodNext(world, s, steps[0]);
      RunPlaces(world, Next(world, s, steps[0]), steps[1..]);
    }
  }

  // ----- the theorem -----

  function LedgerRow(db: Db, l: Uuid): (Load, nat) {
    if l in db.ledger then (db.ledger[l].load, db.ledger[l].revision) else (NO_LOAD, 0)
  }

  /** Every capacity report has reached the warehouse service. */
  ghost predicate AllConsumed(s: Sys) {
    forall i | 0 <= i < |s.inv.outbox| :: Done(s, Warehouses, Inventory, i)
  }

  lemma PlaceAgainstLedger(world: map<Uuid, Site>, s: Sys, l: Uuid)
    requires CapacityLogged(s.inv) && PlacesOk(world, s) && l in s.ware.rows
    ensures s.ware.rows[l].revision <= LedgerRow(s.inv, l).1
    ensures s.ware.rows[l].revision == LedgerRow(s.inv, l).1 || AllConsumed(s) ==>
              (s.ware.rows[l].current, s.ware.rows[l].revision) == LedgerRow(s.inv, l)
  {
    var log, x := s.inv.outbox, s.ware.rows[l];
    assert PlaceTrue(world, s, l);
    assert LastCapacity(log, l)
        == (if l in s.inv.ledger then Some((s.inv.ledger[l].load, s.inv.ledger[l].revision)) else None);
    hide PlacesOk, LastCapacity, CountCapacity, W.Occupancy;
    if x.revision != 0 {
      var i: nat :| IsReport(log, i, l) && log[i].load == x.current && log[i].revision == x.revision;
      ReportBehindCount(log, i, l);
      LastReport(log, l);
      var k: nat :| IsReport(log, k, l) && LastCapacity(log, l).value == (log[k].load, log[k].revision);
      assert AllConsumed(s) ==> log[k].revision <= x.revision by { if AllConsumed(s) { Consumed(world, s, k); } }
      if i < k { ReportsAscend(log, i, k, l); } else if k < i { ReportsAscend(log, k, i, l); }
    } else if l in s.inv.ledger {
      LastReport(log, l);
      var k: nat :| IsReport(log, k, l) && LastCapacity(log, l).value == (log[k].load, log[k].revision);
      ReportBehindCount(log, k, l);
      if AllConsumed(s) { Consumed(world, s, k); }
    }
  }

  lemma Consumed(world: map<Uuid, Site>, s: Sys, k: nat)
    requires PlacesOk(world, s) && k < |s.inv.outbox| && s.inv.outbox[k].LocationCapacityChanged? && AllConsumed(s)
    ensures s.inv.outbox[k].location in s.ware.rows
    ensures s.inv.outbox[k].revision <= s.ware.rows[s.inv.outbox[k].location].revision
  {
    assert ReportConsumed(s, k);
  }

  lemma LedgerIsLoad(world: map<Uuid, Site>, db: Db, l: Uuid)
    requires LedgerOk(world, db)
    ensures LedgerRow(db, l).0 == Total(db.lots, AtLocation(l)).load
  {
    if l in db.ledger {
      assert RowTrue(world, db, l);
    } else {
      forall id | id in db.lots ensures AtLocation(l)(db.lots[id]) == NOTHING { assert Housed(db, db.lots[id]); }
      TotalNothing(db.lots, AtLocation(l));
    }
    hide Total;
  }

  lemma InEveryRun(world: map<Uuid, Site>, now: Time, steps: seq<Step>)
    requires forall k | k in world :: world[k].limit.weight > 0.0 && world[k].limit.volume > 0.0
    ensures var s := System.Run(world, Empty(world, now), steps);
            PlacesOk(world, s) && CapacityLogged(s.inv) && LedgerOk(world, s.inv)
  {
    EmptyAgrees(world, now);
    hide System.Run, CapacityLogged, LedgerOk;
    assert PlacesOk(world, Empty(world, now));
    RunPlaces(world, Empty(world, now), steps);
    hide PlacesOk;
  }

  /** In every reachable state the projection of a location is never ahead of the ledger and
      equals it once every report has been consumed. Its status is BLOCKED, MAINTENANCE or
      what its load says: full exactly when a limit is reached, available exactly when
      nothing is there; and once every report has been consumed, that is the load of the
      lots that stand there. */
  lemma ProjectionConverges(world: map<Uuid, Site>, now: Time, steps: seq<Step>, l: Uuid)
    requires forall k | k in world :: world[k].limit.weight > 0.0 && world[k].limit.volume > 0.0
    ensures var s := System.Run(world, Empty(world, now), steps);
            l in s.ware.rows ==>
              var x := s.ware.rows[l];
              && l in world
              && x.revision <= LedgerRow(s.inv, l).1
              && (AllConsumed(s) ==> (x.current, x.revision) == LedgerRow(s.inv, l))
              && x.site == world[l]
              && (x.status !in {Blocked, Maintenance} ==>
                    && Shows(x.status, x.current, world[l].limit)
                    && (AllConsumed(s) ==> Shows(x.status, Total(s.inv.lots, AtLocation(l)).load, world[l].limit)))
  {
    var s := System.Run(world, Empty(world, now), steps);
    hide System.Run, CapacityLogged, AllConsumed, LedgerOk, Total, Shows;
    InEveryRun(world, now, steps);
    if l in s.ware.rows {
      PlaceAgainstLedger(world, s, l);
      LedgerIsLoad(world, s.inv, l);
      assert PlaceTrue(world, s, l);
      OccupancyShows(s.ware.rows[l].current, world[l].limit);
    }
  }
}
