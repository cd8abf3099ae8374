/** What the inventory service does to its tables is a run in the sense of `TableDrift`: every
    transaction is a chain of charges and of changes that move no units, whatever it was
    allowed to lose to rounding. */
module Chains {
  import opened Domain
  import opened Events
  import opened InventoryRules
  import opened Totals
  import opened StockInvariant
  import opened ReserveDecision
  import opened Closing
  import opened LedgerInvariant
  import opened InventorySafety
  import opened TableDrift
  import Admission
  import Effects
  import EventLog

  // ----- chains -----

  ghost predicate IsChain(world: map<Uuid, Site>, dbs: seq<Db>, db: Db, after: Db, d: real) {
    && dbs != [] && dbs[0] == db && dbs[|dbs| - 1] == after
    && forall i | 0 <= i < |dbs| - 1 :: Moves(world, dbs[i], d, dbs[i + 1])
  }

  ghost predicate Chain(world: map<Uuid, Site>, db: Db, after: Db, d: real) {
    exists dbs :: IsChain(world, dbs, db, after, d)
  }

  lemma ChainNone(world: map<Uuid, Site>, db: Db, d: real)
    ensures Chain(world, db, db, d)
  {
    assert IsChain(world, [db], db, db, d);
  }

  lemma ChainOne(world: map<Uuid, Site>, db: Db, after: Db, d: real)
    requires Moves(world, db, d, after)
    ensures Chain(world, db, after, d)
  {
    hide Moves;
    assert IsChain(world, [db, after], db, after, d);
  }

  lemma ChainThen(world: map<Uuid, Site>, a: Db, b: Db, c: Db, d: real)
    requires Chain(world, a, b, d) && Chain(world, b, c, d)
    ensures Chain(world, a, c, d)
  {
    hide Moves;
    var ds :| IsChain(world, ds, a, b, d);
    var es :| IsChain(world, es, b, c, d);
    var all := ds + es[1..];
    forall i | 0 <= i < |all| - 1
      ensures Moves(world, all[i], d, all[i + 1])
    {
      if i >= |ds| - 1 {
        assert all[i] == es[i - (|ds| - 1)] && all[i + 1] == es[i - (|ds| - 1) + 1];
      }
    }
    assert IsChain(world, all, a, c, d);
  }

  // ----- the links -----

  /** The locations of placed lots exist. */
  ghost predicate AllKnown(world: map<Uuid, Site>, lots: map<Uuid, Lot>) {
    forall id | id in lots && lots[id].location.Some? :: lots[id].location.value in world
  }

  lemma LedgerKnows(world: map<Uuid, Site>, db: Db)
    requires LedgerOk(world, db)
    ensures AllKnown(world, db.lots)
  {
    forall id | id in db.lots && db.lots[id].location.Some?
      ensures db.lots[id].location.value in world
    {
      assert Housed(db, db.lots[id]) && RowTrue(world, db, db.lots[id].location.value);
    }
  }

  /** A charge of the service is a charge without rounding. */
  lemma ChargeLink(world: map<Uuid, Site>, db: Db, x: Lot, l: Uuid, delta: int, reply: Reply<Location>,
                   id: Uuid, y: Lot, d: real)
    requires d >= 0.0 && Restocks(db.lots, x, l, delta, id, y) && l in world && Honest(world, l, reply)
    requires Charge(db, x, l, delta, reply).Ok?
    ensures Chain(world, db, Charge(db, x, l, delta, reply).value.(lots := db.lots[id := y]), d)
  {
    hide Charge, RoundedCharge, Restocks;
    ExactCharge(db, x, l, delta, reply);
    var after := Charge(db, x, l, delta, reply).value.(lots := db.lots[id := y]);
    assert Charges(world, db, Charging(x, l, delta, reply, NO_LOAD, id, y), d, after);
    hide Charges;
    ChainOne(world, db, after, d);
  }

  /** Lots keep their places, their numbers and their sizes. */
  lemma SameLoads(world: map<Uuid, Site>, db: Db, after: Db, d: real)
    requires after.ledger == db.ledger && after.lots.Keys == db.lots.Keys && Sized(after.lots)
    requires forall id | id in db.lots ::
               && after.lots[id].location == db.lots[id].location && after.lots[id].quantity == db.lots[id].quantity
               && after.lots[id].unit == db.lots[id].unit
    ensures Chain(world, db, after, d)
  {
    hide Total, Times, Sized;
    forall l
      ensures Total(after.lots, AtLocation(l)) == Total(db.lots, AtLocation(l))
    {
      TotalPointwise(db.lots, after.lots, AtLocation(l));
    }
    ChainOne(world, db, after, d);
  }

  /** A lot without a location appears or changes. */
  lemma UnplacedLoads(world: map<Uuid, Site>, db: Db, id: Uuid, y: Lot, after: Db, d: real)
    requires Sized(db.lots) && after.ledger == db.ledger && after.lots == db.lots[id := y] && RowAllowed(y)
    requires y.location.None? && (id in db.lots ==> db.lots[id].location.None?)
    ensures Chain(world, db, after, d)
  {
    hide Total, Times;
    forall l
      ensures Total(after.lots, AtLocation(l)) == Total(db.lots, AtLocation(l))
    {
      TotalUpdate(db.lots, id, y, AtLocation(l));
    }
    ChainOne(world, db, after, d);
  }

  /** An event, a booking or an allocation is written. */
  lemma SameLots(world: map<Uuid, Site>, db: Db, after: Db, d: real)
    requires after.ledger == db.ledger && after.lots == db.lots && Sized(db.lots)
    ensures Chain(world, db, after, d)
  {
    hide Sized;
    SameLoads(world, db, after, d);
  }

  // ----- the operations -----

  lemma ReceiveChain(world: map<Uuid, Site>, db: Db, now: Time, q: Receipt, product: Reply<Product>,
                     active: Reply<bool>, newId: Uuid, d: real)
    requires Sized(db.lots)
    ensures var o := Receive(db, now, q, product, active, newId); o.Ok? ==> Chain(world, db, o.value, d)
  {
    hide Sized, Chain;
    var o := Receive(db, now, q, product, active, newId);
    if o.Ok? { UnplacedLoads(world, db, newId, o.value.lots[newId], o.value, d); }
  }

  lemma SizedUpdate(lots: map<Uuid, Lot>, id: Uuid, y: Lot)
    requires Sized(lots) && RowAllowed(y)
    ensures Sized(lots[id := y])
  {
  }

  lemma AdjustChain(world: map<Uuid, Site>, db: Db, q: Change, reply: Reply<Location>, d: real)
    requires d >= 0.0 && Sized(db.lots) && AllKnown(world, db.lots) && q.stock in db.lots
    requires db.lots[q.stock].location.Some? ==> Honest(world, db.lots[q.stock].location.value, reply)
    ensures var o := AdjustLot(db, q, reply); o.Ok? ==> Chain(world, db, o.value, d)
  {
    var x := db.lots[q.stock];
    var y := x.(quantity := q.quantity);
    var delta := q.quantity - x.quantity;
    assert RowAllowed(x) && (x.location.Some? ==> x.location.value in world);
    var o := AdjustLot(db, q, reply);
    if o.Ok? {
      AdjustFrame(db, q, reply);
      Effects.AdjustLog(db, q, reply);
      SizedUpdate(db.lots, q.stock, y);
      hide Sized, AllKnown, Chain, Charge;
      if x.location.Some? && delta != 0 {
        ChargeFrame(db, x, x.location.value, delta, reply);
        ChargeLink(world, db, x, x.location.value, delta, reply, q.stock, y, d);
        var mid := Charge(db, x, x.location.value, delta, reply).value.(lots := db.lots[q.stock := y]);
        SameLots(world, mid, o.value, d);
        ChainThen(world, db, mid, o.value, d);
      } else if x.location.None? {
        UnplacedLoads(world, db, q.stock, y, o.value, d);
      } else {
        SameLoads(world, db, o.value, d);
      }
    }
  }

  lemma WithdrawChain(world: map<Uuid, Site>, db: Db, id: Uuid, n: int, d: real)
    requires d >= 0.0 && Sized(db.lots) && AllKnown(world, db.lots) && id in db.lots
    requires 0 <= n <= db.lots[id].quantity - db.lots[id].reserved
    ensures var o := Withdraw(db, id, db.lots[id], n); o.Ok? ==> Chain(world, db, o.value, d) && Sized(o.value.lots)
  {
    var x := db.lots[id];
    var y := x.(quantity := x.quantity - n);
    assert RowAllowed(y) && (x.location.Some? ==> x.location.value in world);
    WithdrawFrame(db, id, x, n);
    SizedUpdate(db.lots, id, y);
    hide Sized, AllKnown, Chain, Charge;
    var o := Withdraw(db, id, x, n);
    if o.Ok? {
      if x.location.Some? {
        ChargeFrame(db, x, x.location.value, -n, NoAnswer);
        ChargeLink(world, db, x, x.location.value, -n, NoAnswer, id, y, d);
      } else {
        UnplacedLoads(world, db, id, y, o.value, d);
      }
    }
  }

  lemma WriteOffChain(world: map<Uuid, Site>, db: Db, q: Change, d: real)
    requires d >= 0.0 && Sized(db.lots) && AllKnown(world, db.lots) && q.stock in db.lots
    ensures var o := WriteOffLot(db, q); o.Ok? ==> Chain(world, db, o.value, d)
  {
    hide Sized, AllKnown, Chain, Withdraw;
    var o := WriteOffLot(db, q);
    if o.Ok? {
      WithdrawChain(world, db, q.stock, q.quantity, d);
      var mid := Withdraw(db, q.stock, db.lots[q.stock], q.quantity).value;
      SameLots(world, mid, o.value, d);
      ChainThen(world, db, mid, o.value, d);
    }
  }

  lemma MoveChain(world: map<Uuid, Site>, db: Db, now: Time, q: Change, reply: Reply<Location>, newId: Uuid, d: real)
    requires d >= 0.0 && Sized(db.lots) && AllKnown(world, db.lots) && q.stock in db.lots && Honest(world, q.to, reply)
    ensures var o := MoveLot(db, now, q, reply, newId); o.Ok? ==> Chain(world, db, o.value, d)
  {
    var x := db.lots[q.stock];
    assert RowAllowed(x);
    var o := MoveLot(db, now, q, reply, newId);
    if o.Ok? {
      Effects.MoveSteps(db, now, q, reply, newId);
      ChargeFrame(db, x, q.to, q.quantity, reply);
      Admission.ChargeShows(db, x, q.to, q.quantity, reply);
      hide MoveLot, Chain, Charge, Withdraw;
      var charged := Charge(db, x, q.to, q.quantity, reply).value;
      var copy := x.(location := Some(q.to), quantity := q.quantity, reserved := 0, created := now);
      var mid := charged.(lots := db.lots[newId := copy]);
      ChargeLink(world, db, x, q.to, q.quantity, reply, newId, copy, d);
      SizedUpdate(db.lots, newId, copy);
      WithdrawChain(world, mid, q.stock, q.quantity, d);
      var left := Withdraw(mid, q.stock, x, q.quantity).value;
      SameLots(world, left, o.value, d);
      ChainThen(world, db, mid, left, d);
      ChainThen(world, db, left, o.value, d);
    }
  }

  lemma PlaceChain(world: map<Uuid, Site>, db: Db, stock: Uuid, w: Uuid, l: Uuid, reply: Reply<Location>, d: real)
    requires d >= 0.0 && Sized(db.lots) && Honest(world, l, reply)
    ensures var o := Place(db, stock, w, l, reply); o.Ok? ==> Chain(world, db, o.value, d)
  {
    var o := Place(db, stock, w, l, reply);
    ChainNone(world, db, d);
    if o.Ok? && o.value != db {
      var x := db.lots[stock];
      assert RowAllowed(x);
      var y := x.(location := Some(l));
      ChargeFrame(db, x, l, x.quantity, reply);
      Admission.ChargeShows(db, x, l, x.quantity, reply);
      SizedUpdate(db.lots, stock, y);
      hide Sized, Chain, Charge;
      ChargeLink(world, db, x, l, x.quantity, reply, stock, y, d);
      var mid := Charge(db, x, l, x.quantity, reply).value.(lots := db.lots[stock := y]);
      SameLots(world, mid, o.value, d);
      ChainThen(world, db, mid, o.value, d);
    }
  }

  // ----- reservations -----

  lemma ReserveChain(world: map<Uuid, Site>, db: Db, now: Time, r: Uuid, w: Uuid, lines: seq<Line>, expires: Time,
                     d: real)
    requires StockOk(db)
    ensures var o := Reserve(db, now, r, w, lines, expires); o.Ok? ==> Chain(world, db, o.value, d)
  {
    ChainNone(world, db, d);
    if r !in db.bookings {
      ReserveIs(db, now, r, w, lines, expires);
      var o := Reserve(db, now, r, w, lines, expires);
      if o.Ok? {
        StockIsSized(o.value);
        hide StockOk, Reserve, Picks, Acceptable, Chain, Sized, UnitsOf;
        SameLoads(world, db, o.value, d);
      }
    }
  }

  lemma ReleaseChain(world: map<Uuid, Site>, db: Db, r: Uuid, expired: bool, d: real)
    requires StockOk(db)
    ensures var o := Release(db, r, expired); o.Ok? ==> Chain(world, db, o.value, d)
  {
    ChainNone(world, db, d);
    ReleaseKeeps(db, r, expired);
    var o := Release(db, r, expired);
    if o.Ok? && IsConfirmed(db.bookings, r) {
      ReleaseIs(db, r, expired);
      StockIsSized(o.value);
      hide StockOk, Release, RowsOf, UnitsOf, Chain, Sized;
      SameLoads(world, db, o.value, d);
    }
  }

  lemma ShipRowChain(world: map<Uuid, Site>, db: Db, now: Time, a: Alloc, d: real)
    requires d >= 0.0 && Sized(db.lots) && AllKnown(world, db.lots) && a.stock in db.lots
    requires db.lots[a.stock].location.Some?
    requires 0 < a.quantity <= db.lots[a.stock].reserved
    ensures var o := ShipRow(db, now, a); o.Ok? ==> Chain(world, db, o.value, d)
  {
    var x := db.lots[a.stock];
    var y := Shipped1(db.lots, a)[a.stock];
    assert RowAllowed(x) && x.location.value in world;
    hide Sized, AllKnown, Chain;
    ShipRowIs(db, now, a);
    hide ShipRow, Charge;
    if ShipRow(db, now, a).Ok? { ChargeLink(world, db, x, x.location.value, -a.quantity, NoAnswer, a.stock, y, d); }
  }

  lemma KnownRest(world: map<Uuid, Site>, lots: map<Uuid, Lot>, a: Alloc)
    requires AllKnown(world, lots) && a.stock in lots
    ensures AllKnown(world, Shipped1(lots, a))
  {
  }

  lemma {:induction false} ShipRowsChain(world: map<Uuid, Site>, db: Db, now: Time, rows: seq<Alloc>, d: real)
    requires d >= 0.0 && Sized(db.lots) && AllKnown(world, db.lots) && Backed(db.lots, rows)
    ensures var o := ShipRows(db, now, rows); o.Ok? ==> Chain(world, db, o.value, d)
    decreases |rows|
  {
    if rows == [] {
      ChainNone(world, db, d);
    } else {
      BackedHead(db.lots, rows);
      hide Sized, AllKnown, Backed, Chain, ShipRow, Charge, UnitsOf;
      ShipRowIs(db, now, rows[0]);
      ShipRowChain(world, db, now, rows[0], d);
      var o := ShipRow(db, now, rows[0]);
      if o.Ok? && ShipRows(o.value, now, rows[1..]).Ok? {
        SizedRest(db.lots, rows[0]);
        KnownRest(world, db.lots, rows[0]);
        BackedStep(db.lots, rows);
        ShipRowsChain(world, o.value, now, rows[1..], d);
        ChainThen(world, db, o.value, ShipRows(o.value, now, rows[1..]).value, d);
      }
    }
  }

  lemma ShipChain(world: map<Uuid, Site>, db: Db, now: Time, r: Uuid, w: Uuid, s: Uuid, d: real)
    requires d >= 0.0 && StockOk(db) && AllKnown(world, db.lots)
    ensures var o := Ship(db, now, r, w, s); o.Ok? ==> Chain(world, db, o.value, d)
  {
    ChainNone(world, db, d);
    ShipKeeps(db, now, r, w, s);
    var o := Ship(db, now, r, w, s);
    if o.Ok? && IsConfirmed(db.bookings, r) {
      StockIsSized(db);
      StockIsSized(o.value);
      RowsAreBacked(db, r);
      hide StockOk, AllKnown, Backed, Chain, Sized, RowsOf, ShipRows, ItemsOf, Deducting;
      var rows := RowsOf(db.allocs, r);
      ShipRowsChain(world, db, now, rows, d);
      var mid := ShipRows(db, now, rows).value;
      SameLots(world, mid, o.value, d);
      ChainThen(world, db, mid, o.value, d);
    }
  }

  // ----- every transaction -----

  lemma ChangeChain(world: map<Uuid, Site>, db: Db, t: Transaction, d: real)
    requires d >= 0.0 && Sized(db.lots) && AllKnown(world, db.lots) && t.Changing? && HonestFor(world, db, t)
    ensures Attempt(db, t).Ok? ==> Chain(world, db, Attempt(db, t).value, d)
  {
    hide Sized, AllKnown, Chain, AdjustLot, MoveLot, WriteOffLot;
    if t.change.stock in db.lots {
      match t.action
      case Adjust => AdjustChain(world, db, t.change, t.reply, d);
      case Move => MoveChain(world, db, t.now, t.change, t.reply, t.newId, d);
      case WriteOff => WriteOffChain(world, db, t.change, d);
    }
  }

  lemma HandleChain(world: map<Uuid, Site>, db: Db, now: Time, e: Event, reply: Reply<Location>, d: real)
    requires d >= 0.0 && StockOk(db) && AllKnown(world, db.lots) && HonestFor(world, db, Consuming(now, e, reply))
    ensures var o := Handle(db, now, e, reply); o.Ok? ==> Chain(world, db, o.value, d)
  {
    StockIsSized(db);
    ChainNone(world, db, d);
    hide StockOk, AllKnown, Sized, Chain, Reserve, Release, Ship, Place;
    match e {
      case ReservationRequested(r, w, lines, expires) => ReserveChain(world, db, now, r, w, lines, expires, d);
      case ReservationCancellationRequested(r, _, _) => ReleaseChain(world, db, r, false, d);
      case ShipmentRequested(s, w, r) => ShipChain(world, db, now, r, w, s, d);
      case ProductPlacementAssigned(stock, w, l, _) => PlaceChain(world, db, stock, w, l, reply, d);
      case _ =>
    }
    if Relevant(e) && Decide(db, now, e, reply).Err? && Handle(db, now, e, reply).Ok? {
      SameLots(world, db, Handle(db, now, e, reply).value, d);
    }
  }

  /** Every transaction of the service, committed or rolled back, is a chain. */
  lemma TransactionIsChain(world: map<Uuid, Site>, db: Db, t: Transaction, d: real)
    requires d >= 0.0 && Sound(world, db) && HonestFor(world, db, t)
    ensures Chain(world, db, Commit(db, t), d)
  {
    StockIsSized(db);
    LedgerKnows(world, db);
    ChainNone(world, db, d);
    assert StockOk(db);
    hide Sound, StockOk, Sized, AllKnown, Chain, Handle, Release, Receive, ApplyChange, HonestFor;
    match t
    case Receiving(now, q, product, active, newId) => ReceiveChain(world, db, now, q, product, active, newId, d);
    case Changing(_, _, _, _, _) => ChangeChain(world, db, t, d);
    case Consuming(now, e, reply) => HandleChain(world, db, now, e, reply, d);
    case Expiring(r) => ReleaseChain(world, db, r, true, d);
  }

  lemma {:induction false} RunIsChain(world: map<Uuid, Site>, db: Db, ts: seq<Transaction>, d: real)
    requires d >= 0.0 && Sound(world, db) && HonestRun(world, db, ts)
    ensures Chain(world, db, Run(db, ts), d)
    decreases |ts|
  {
    if ts == [] {
      ChainNone(world, db, d);
    } else {
      hide Sound, Chain, Commit, HonestFor;
      TransactionIsChain(world, db, ts[0], d);
      CommitSafe(world, db, ts[0]);
      RunIsChain(world, Commit(db, ts[0]), ts[1..], d);
      ChainThen(world, db, Commit(db, ts[0]), Run(db, ts), d);
    }
  }

  lemma EmptySound(world: map<Uuid, Site>)
    ensures Sound(world, EMPTY)
  {
    assert EventLog.Snapshot(EMPTY.lots) == map[];
  }

  /** Every run of the service from the empty tables is a run in the sense of `TableDrift`,
      whatever the error `d` it is allowed. */
  lemma ServiceRuns(world: map<Uuid, Site>, ts: seq<Transaction>, d: real) returns (dbs: seq<Db>)
    requires d >= 0.0 && HonestRun(world, EMPTY, ts)
    ensures IsRun(world, dbs, d) && dbs[|dbs| - 1] == Run(EMPTY, ts)
  {
    hide Sound, HonestRun, Run, Moves;
    EmptySound(world);
    RunIsChain(world, EMPTY, ts, d);
    dbs :| IsChain(world, dbs, EMPTY, Run(EMPTY, ts), d);
  }
}
