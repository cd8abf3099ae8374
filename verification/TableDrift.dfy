/** Rounding in the tables: when every charge of the capacity ledger may add a rounding error
    of at most `d`, a ledger row stays within its revision times `d` of the summed load of the
    lots at the location, over every run. */
module TableDrift {
  import opened Domain
  import opened Events
  import opened InventoryRules
  import opened Totals
  import opened LedgerInvariant
  import opened Drift

  /** `Charge` with a rounding error. */
  function RoundedCharge(db: Db, x: Lot, l: Uuid, delta: int, reply: Reply<Location>, rounding: Load): Outcome<Db> {
    var limit :- if delta > 0 then (var l :- Admit(x, reply); Ok(Some(l))) else Ok(None);
    var row := InventoryRules.Row(db, x, l);
    var load :- Settle(row.load, Plus(Times(delta, x.unit), rounding), limit);
    var next := Capacity(row.warehouse, load, row.revision + 1);
    Ok(Emit(db.(ledger := db.ledger[l := next]), LocationCapacityChanged(l, x.warehouse, load, next.revision)))
  }

  lemma ExactCharge(db: Db, x: Lot, l: Uuid, delta: int, reply: Reply<Location>)
    ensures RoundedCharge(db, x, l, delta, reply, NO_LOAD) == Charge(db, x, l, delta, reply)
  {
    assert Plus(Times(delta, x.unit), NO_LOAD) == Times(delta, x.unit);
    hide Times, Plus, Settle, Admit;
  }

  /** Lot `id` becomes `y`, and its location is charged for the difference. */
  datatype Charging = Charging(
    x: Lot, location: Uuid, delta: int, reply: Reply<Location>, rounding: Load, id: Uuid, y: Lot)

  ghost predicate Charges(world: map<Uuid, Site>, db: Db, c: Charging, d: real, after: Db) {
    && Restocks(db.lots, c.x, c.location, c.delta, c.id, c.y)
    && c.location in world && Honest(world, c.location, c.reply) && Drift.Within(c.rounding, NO_LOAD, d)
    && var o := RoundedCharge(db, c.x, c.location, c.delta, c.reply, c.rounding);
       if o.Ok? then after == o.value.(lots := db.lots[c.id := c.y]) else after == db
  }

  /** Nothing is charged, and no location gains or loses units: reserving, receiving, and
      whatever else a transaction does. */
  ghost predicate Keeps(db: Db, after: Db) {
    && after.ledger == db.ledger && Sized(after.lots)
    && forall l :: Total(after.lots, AtLocation(l)) == Total(db.lots, AtLocation(l))
  }

  ghost predicate Moves(world: map<Uuid, Site>, db: Db, d: real, after: Db) {
    Keeps(db, after) || exists c :: Charges(world, db, c, d, after)
  }

  /** A run of charges and other changes, database by database. */
  ghost predicate IsRun(world: map<Uuid, Site>, dbs: seq<Db>, d: real) {
    && dbs != [] && dbs[0] == EMPTY
    && forall i | 0 <= i < |dbs| - 1 :: Moves(world, dbs[i], d, dbs[i + 1])
  }

  /** The ledger row of a location, what stands there, and how often it was charged. */
  ghost function RowOf(db: Db, l: Uuid): Drift.Row {
    var truth := Total(db.lots, AtLocation(l)).load;
    if l in db.ledger then Drift.Row(db.ledger[l].load, truth, db.ledger[l].revision) else Drift.Row(NO_LOAD, truth, 0)
  }

  ghost predicate DriftOk(world: map<Uuid, Site>, db: Db, d: real) {
    Sized(db.lots) && forall l | l in world :: Bounded(RowOf(db, l), world[l].limit, d)
  }

  ghost predicate LimitsOk(world: map<Uuid, Site>) {
    forall l | l in world :: NotNegative(world[l].limit)
  }

  // ----- one charge -----

  /** The update that a charge is for its row. */
  function UpdateOf(world: map<Uuid, Site>, c: Charging): Update
    requires c.location in world
  {
    Update(Times(c.delta, c.x.unit), c.rounding, if c.delta > 0 then Some(world[c.location].limit) else None)
  }

  /** What is charged is the change of what stands there, which is never negative. */
  lemma ChargeIsReal(world: map<Uuid, Site>, db: Db, c: Charging, d: real)
    requires Sized(db.lots) && Restocks(db.lots, c.x, c.location, c.delta, c.id, c.y)
    requires c.location in world && Drift.Within(c.rounding, NO_LOAD, d)
    ensures Real(RowOf(db, c.location), UpdateOf(world, c), world[c.location].limit, d)
    ensures Total(db.lots[c.id := c.y], AtLocation(c.location)).load
              == Plus(RowOf(db, c.location).truth, UpdateOf(world, c).change)
  {
    hide Total, Times;
    LoadMoves(db.lots, c.x, c.location, c.delta, c.id, c.y);
    LoadNonNegative(db.lots[c.id := c.y], c.location);
    if c.delta <= 0 { Shrinks(NO_LOAD, c.delta, c.x.unit); }
    hide Sized, Restocks;
  }

  /** The new row is what the update makes of the old one. */
  lemma ChargedRow(world: map<Uuid, Site>, db: Db, c: Charging)
    requires c.location in world && Honest(world, c.location, c.reply)
    ensures var o := RoundedCharge(db, c.x, c.location, c.delta, c.reply, c.rounding);
            o.Ok? ==>
              && o.value == db.(ledger := o.value.ledger, outbox := o.value.outbox)
              && c.location in o.value.ledger && o.value.ledger == db.ledger[c.location := o.value.ledger[c.location]]
              && var row := RowOf(db, c.location);
                 var step := Step(row, UpdateOf(world, c));
                 && step.Ok?
                 && o.value.ledger[c.location].load == step.value.row
                 && o.value.ledger[c.location].revision == step.value.updates
  {
    hide Total, Times, Plus;
  }

  lemma ChargeKeeps(world: map<Uuid, Site>, db: Db, c: Charging, d: real, after: Db)
    requires d >= 0.0 && DriftOk(world, db, d) && Charges(world, db, c, d, after)
    ensures DriftOk(world, after, d)
  {
    if after != db {
      ChargedRow(world, db, c);
      ChargeIsReal(world, db, c, d);
      LoadMoves(db.lots, c.x, c.location, c.delta, c.id, c.y);
      StepBounded(RowOf(db, c.location), UpdateOf(world, c), world[c.location].limit, d);
      hide Total, Times, Plus, RoundedCharge, Bounded, Real, Settle;
      assert RowOf(after, c.location) == After(RowOf(db, c.location), UpdateOf(world, c));
      forall l | l in world
        ensures Bounded(RowOf(after, l), world[l].limit, d)
      {
        if l != c.location { assert RowOf(after, l) == RowOf(db, l); }
      }
    }
  }

  lemma EmptyDrift(world: map<Uuid, Site>, d: real)
    requires d >= 0.0 && LimitsOk(world)
    ensures DriftOk(world, EMPTY, d)
  {
    BudgetGrows(0, d);
    hide Budget;
  }

  // ----- every run -----

  lemma {:induction false} RunDrifts(world: map<Uuid, Site>, dbs: seq<Db>, d: real, i: nat)
    requires d >= 0.0 && LimitsOk(world) && IsRun(world, dbs, d) && i < |dbs|
    ensures DriftOk(world, dbs[i], d)
  {
    if i == 0 {
      EmptyDrift(world, d);
    } else {
      RunDrifts(world, dbs, d, i - 1);
      var db, after := dbs[i - 1], dbs[i];
      assert Moves(world, dbs[i - 1], d, dbs[i - 1 + 1]);
      hide Charges, Bounded, Total;
      if Keeps(db, after) {
        forall l | l in world ensures RowOf(after, l) == RowOf(db, l) {}
      } else {
        var c :| Charges(world, db, c, d, after);
        ChargeKeeps(world, db, c, d, after);
      }
    }
  }

  /** In every run, the ledger row of a location is within one error per charge of what
      stands there, and what stands there exceeds the limit by at most as much. */
  lemma LedgerDrifts(world: map<Uuid, Site>, dbs: seq<Db>, d: real, i: nat, l: Uuid)
    requires d >= 0.0 && LimitsOk(world) && IsRun(world, dbs, d) && i < |dbs| && l in world && l in dbs[i].ledger
    ensures var row, truth := dbs[i].ledger[l], Total(dbs[i].lots, AtLocation(l)).load;
            var budget := Budget(row.revision, d);
            && Drift.Within(row.load, truth, budget)
            && truth.weight <= world[l].limit.weight + 0.000000001 + budget
            && truth.volume <= world[l].limit.volume + 0.000000001 + budget
  {
    RunDrifts(world, dbs, d, i);
    hide Budget, Total;
    assert Bounded(RowOf(dbs[i], l), world[l].limit, d);
  }

  /** In every run, while the budget of a location is within the slack, no charge there is
      refused as a violated invariant. */
  lemma WithinSlackNothingBreaks(world: map<Uuid, Site>, dbs: seq<Db>, d: real, i: nat, c: Charging)
    requires d >= 0.0 && LimitsOk(world) && IsRun(world, dbs, d) && i < |dbs| && c.location in world
    requires Restocks(dbs[i].lots, c.x, c.location, c.delta, c.id, c.y)
    requires Honest(world, c.location, c.reply) && Drift.Within(c.rounding, NO_LOAD, d)
    requires Budget(RowOf(dbs[i], c.location).updates + 1, d) <= 0.0000001
    ensures RoundedCharge(dbs[i], c.x, c.location, c.delta, c.reply, c.rounding) != Err(Broken(CapacityViolated))
  {
    var db := dbs[i];
    RunDrifts(world, dbs, d, i);
    assert Bounded(RowOf(db, c.location), world[c.location].limit, d);
    hide Budget, Total, Times, Bounded, Real, IsRun;
    ChargeIsReal(world, db, c, d);
    StepBounded(RowOf(db, c.location), UpdateOf(world, c), world[c.location].limit, d);
    if RoundedCharge(db, c.x, c.location, c.delta, c.reply, c.rounding) == Err(Broken(CapacityViolated)) {
      BrokenRow(world, db, c);
    }
  }

  /** A charge that is refused as a violated invariant is a step of its row that breaks. */
  lemma BrokenRow(world: map<Uuid, Site>, db: Db, c: Charging)
    requires c.location in world && Honest(world, c.location, c.reply)
    requires RoundedCharge(db, c.x, c.location, c.delta, c.reply, c.rounding) == Err(Broken(CapacityViolated))
    ensures Breaks(RowOf(db, c.location), UpdateOf(world, c))
  {
    hide Total, Times, Plus;
  }
}
