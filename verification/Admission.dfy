/** What comes to a location: units arrive only where a lookup has just shown an open
    storage location of their kind with room for them, and therefore every lot stands,
    in every reachable state, where lots of its kind belong. */
module Admission {
  import opened Domain
  import opened Events
  import opened InventoryRules
  import opened Totals
  import opened StockInvariant
  import opened ReserveDecision
  import opened Closing
  import opened LedgerInvariant
  import opened InventorySafety
  import opened Effects
  import AgreementRuns
  import System

  /** The location takes lots like this one. */
  predicate TakesLot(site: Site, x: Lot) {
    site.warehouse == x.warehouse && site.zone == Storage && site.storage == x.storage
  }

  predicate IsOpen(location: Location) {
    location.status != Blocked && location.status != Maintenance
  }

  function Product(n: int, size: real): real {
    n as real * size
  }

  /** Next to the lots at the location there is room for `n` units of the lot. */
  ghost predicate RoomFor(lots: map<Uuid, Lot>, l: Uuid, x: Lot, n: int, limit: Load) {
    var load := Total(lots, AtLocation(l)).load;
    && load.weight + Product(n, x.unit.weight) <= limit.weight + 0.000000001
    && load.volume + Product(n, x.unit.volume) <= limit.volume + 0.000000001
  }

  /** A growing charge goes through exactly when the lookup shows an open location for the
      lot and what stands there, with what is added, is within its limit. */
  lemma ChargeAdmits(world: map<Uuid, Site>, db: Db, x: Lot, l: Uuid, delta: int, reply: Reply<Location>)
    requires LedgerOk(world, db) && Sized(db.lots) && RowAllowed(x) && delta > 0
    ensures Charge(db, x, l, delta, reply).Ok? <==>
            && reply.Found? && IsOpen(reply.value) && TakesLot(reply.value.site, x)
            && RoomFor(db.lots, l, x, delta, reply.value.site.limit)
  {
    hide Total, Times, LedgerOk, Sized, RoomFor;
    RowIsTotal(world, db, x, l);
    LoadNonNegative(db.lots, l);
    TimesNonNegative(delta, x.unit);
    if reply.Found? { RoomMeans(db.lots, l, x, delta, reply.value.site.limit); }
  }

  lemma RoomMeans(lots: map<Uuid, Lot>, l: Uuid, x: Lot, n: int, limit: Load)
    ensures RoomFor(lots, l, x, n, limit) <==>
              !Exceeds(Plus(Total(lots, AtLocation(l)).load, Times(n, x.unit)), limit)
  {
    hide Total, Times, Product;
    TimesIs(n, x.unit);
  }

  lemma TimesIs(n: int, unit: Load)
    ensures Times(n, unit).weight == Product(n, unit.weight) && Times(n, unit).volume == Product(n, unit.volume)
  {
  }

  /** What stands at a location is the sum, over its lots, of the units times their size. */
  lemma LoadAdds(lots: map<Uuid, Lot>, id: Uuid, l: Uuid)
    requires id in lots
    ensures var x, all, rest := lots[id], Total(lots, AtLocation(l)).load, Total(lots - {id}, AtLocation(l)).load;
            if x.location == Some(l) then
              && all.weight == rest.weight + Product(x.quantity, x.unit.weight)
              && all.volume == rest.volume + Product(x.quantity, x.unit.volume)
            else all == rest
    ensures Total(map[], AtLocation(l)).load == NO_LOAD
  {
    hide Total, Times, Product;
    TotalWithout(lots, id, AtLocation(l));
    TotalOfNothing(AtLocation(l));
    TimesIs(lots[id].quantity, lots[id].unit);
  }

  // ----- what a transaction brings to a location -----

  /** The lot stands where it stood, with no more units than before. */
  predicate Stays(x: Lot, y: Lot) {
    y.location == x.location && y.quantity <= x.quantity
  }

  predicate Arrives(lots: map<Uuid, Lot>, after: map<Uuid, Lot>, id: Uuid) {
    id in after && after[id].location.Some? && !(id in lots && Stays(lots[id], after[id]))
  }

  function Answer(t: Transaction): Reply<Location> {
    match t
    case Changing(_, _, _, reply, _) => reply
    case Consuming(_, _, reply) => reply
    case _ => NoAnswer
  }

  /** The location the transaction has looked up. */
  predicate AsksFor(db: Db, t: Transaction, l: Uuid) {
    match t
    case Changing(_, Adjust, q, _, _) => q.stock in db.lots && db.lots[q.stock].location == Some(l)
    case Changing(_, Move, q, _, _) => q.to == l
    case Consuming(_, ProductPlacementAssigned(_, _, at, _), _) => at == l
    case _ => false
  }

  predicate Shown(reply: Reply<Location>, x: Lot) {
    reply.Found? && IsOpen(reply.value) && TakesLot(reply.value.site, x)
  }

  ghost predicate Admitted(db: Db, t: Transaction, after: Db) {
    forall id | Arrives(db.lots, after.lots, id) ::
      AsksFor(db, t, after.lots[id].location.value) && Shown(Answer(t), after.lots[id])
  }

  ghost predicate NothingArrives(db: Db, after: Db) {
    forall id :: !Arrives(db.lots, after.lots, id)
  }

  lemma ChargeShows(db: Db, x: Lot, l: Uuid, delta: int, reply: Reply<Location>)
    requires delta > 0 && Charge(db, x, l, delta, reply).Ok?
    ensures Shown(reply, x)
  {
  }

  lemma AdjustArrives(db: Db, now: Time, q: Change, reply: Reply<Location>, newId: Uuid)
    requires StockOk(db) && q.stock in db.lots
    ensures var o := AdjustLot(db, q, reply); o.Ok? ==> Admitted(db, Changing(now, Adjust, q, reply, newId), o.value)
  {
    assert LotOk(db, q.stock);
    hide StockOk;
    AdjustFrame(db, q, reply);
    var x := db.lots[q.stock];
    if AdjustLot(db, q, reply).Ok? && q.quantity > x.quantity {
      AdjustLog(db, q, reply);
      ChargeShows(db, x, x.location.value, q.quantity - x.quantity, reply);
    }
    hide AdjustLot;
  }

  lemma WriteOffArrives(db: Db, q: Change)
    requires StockOk(db) && q.stock in db.lots
    ensures var o := WriteOffLot(db, q); o.Ok? ==> NothingArrives(db, o.value)
  {
    assert LotOk(db, q.stock);
    var x := db.lots[q.stock];
    if 0 < q.quantity <= x.quantity - x.reserved { WithdrawFrame(db, q.stock, x, q.quantity); }
    hide StockOk, Withdraw;
  }

  lemma MoveArrives(db: Db, now: Time, q: Change, reply: Reply<Location>, newId: Uuid)
    requires StockOk(db) && q.stock in db.lots
    ensures var o := MoveLot(db, now, q, reply, newId); o.Ok? ==>
              Admitted(db, Changing(now, Move, q, reply, newId), o.value)
  {
    assert LotOk(db, q.stock);
    hide StockOk;
    var x := db.lots[q.stock];
    var o := MoveLot(db, now, q, reply, newId);
    if o.Ok? {
      MoveSteps(db, now, q, reply, newId);
      hide MoveLot;
      ChargeFrame(db, x, q.to, q.quantity, reply);
      ChargeShows(db, x, q.to, q.quantity, reply);
      var charged := Charge(db, x, q.to, q.quantity, reply).value;
      var copy := x.(location := Some(q.to), quantity := q.quantity, reserved := 0, created := now);
      WithdrawFrame(charged.(lots := db.lots[newId := copy]), q.stock, x, q.quantity);
      hide Charge, Withdraw;
      assert o.value.lots == db.lots[newId := copy][q.stock := x.(quantity := x.quantity - q.quantity)];
    }
  }

  lemma PlaceArrives(db: Db, now: Time, e: Event, reply: Reply<Location>)
    requires StockOk(db) && e.ProductPlacementAssigned?
    ensures var o := Place(db, e.stock, e.warehouse, e.location, reply); o.Ok? ==>
              Admitted(db, Consuming(now, e, reply), o.value)
  {
    var o := Place(db, e.stock, e.warehouse, e.location, reply);
    if o.Ok? && o.value != db {
      assert LotOk(db, e.stock);
      hide StockOk;
      ChargeFrame(db, db.lots[e.stock], e.location, db.lots[e.stock].quantity, reply);
      ChargeShows(db, db.lots[e.stock], e.location, db.lots[e.stock].quantity, reply);
      hide Charge;
    }
  }

  lemma ReserveArrives(db: Db, now: Time, r: Uuid, w: Uuid, lines: seq<Line>, expires: Time)
    requires StockOk(db)
    ensures var o := Reserve(db, now, r, w, lines, expires); o.Ok? ==> NothingArrives(db, o.value)
  {
    if r !in db.bookings { ReserveIs(db, now, r, w, lines, expires); }
    hide StockOk, TakeLines, Picks, UnitsOf, Acceptable;
  }

  lemma ReleaseArrives(db: Db, r: Uuid, expired: bool)
    requires StockOk(db)
    ensures var o := Release(db, r, expired); o.Ok? ==> NothingArrives(db, o.value)
  {
    if IsConfirmed(db.bookings, r) {
      ReleaseIs(db, r, expired);
      hide Release;
    }
    hide StockOk, RowsOf, UnitsOf, ItemsOf;
  }

  lemma ShipArrives(db: Db, now: Time, r: Uuid, w: Uuid, s: Uuid)
    requires StockOk(db)
    ensures var o := Ship(db, now, r, w, s); o.Ok? ==> NothingArrives(db, o.value)
  {
    if IsConfirmed(db.bookings, r) {
      var rows := RowsOf(db.allocs, r);
      RowsAreBacked(db, r);
      ShipRowsIs(db, now, rows);
      forall id | id in db.lots ensures UnitsOf(rows, id) >= 0 { UnitsHeld(db, r, id); }
    }
    hide StockOk, RowsOf, UnitsOf, ItemsOf, ShipRows, Backed;
  }

  lemma HandleArrives(db: Db, now: Time, e: Event, reply: Reply<Location>)
    requires StockOk(db)
    ensures var o := Handle(db, now, e, reply); o.Ok? ==> Admitted(db, Consuming(now, e, reply), o.value)
  {
    hide StockOk, Reserve, Release, Ship, Place;
    match e
    case ReservationRequested(r, w, lines, expires) => ReserveArrives(db, now, r, w, lines, expires);
    case ReservationCancellationRequested(r, _, _) => ReleaseArrives(db, r, false);
    case ShipmentRequested(s, w, r) => ShipArrives(db, now, r, w, s);
    case ProductPlacementAssigned(_, _, _, _) => PlaceArrives(db, now, e, reply);
    case _ =>
  }

  /** Whatever a transaction brings to a location, it has just been shown that location,
      open, of the lot's warehouse and made for lots of its kind. */
  lemma ArrivalsAreAdmitted(db: Db, t: Transaction)
    requires StockOk(db)
    ensures Admitted(db, t, Commit(db, t))
  {
    hide StockOk, AdjustLot, MoveLot, WriteOffLot, Handle, Release;
    match t
    case Receiving(_, _, _, _, _) =>
    case Changing(now, action, q, reply, newId) =>
      if q.stock in db.lots {
        match action
        case Adjust => AdjustArrives(db, now, q, reply, newId);
        case Move => MoveArrives(db, now, q, reply, newId);
        case WriteOff => WriteOffArrives(db, q);
      }
    case Consuming(now, e, reply) => HandleArrives(db, now, e, reply);
    case Expiring(r) => ReleaseArrives(db, r, true);
  }

  // ----- every run -----

  predicate StandsWell(world: map<Uuid, Site>, x: Lot) {
    x.location.Some? ==> x.location.value in world && TakesLot(world[x.location.value], x)
  }

  ghost predicate AllStandWell(world: map<Uuid, Site>, db: Db) {
    forall id | id in db.lots :: StandsWell(world, db.lots[id])
  }

  /** An honest lookup of the location in question. */
  lemma HonestAnswer(world: map<Uuid, Site>, db: Db, t: Transaction, l: Uuid)
    requires HonestFor(world, db, t) && AsksFor(db, t, l)
    ensures Honest(world, l, Answer(t))
  {
  }

  lemma CommitStandsWell(world: map<Uuid, Site>, db: Db, t: Transaction)
    requires StockOk(db) && HonestFor(world, db, t) && AllStandWell(world, db)
    ensures AllStandWell(world, Commit(db, t))
  {
    var after := Commit(db, t);
    ArrivalsAreAdmitted(db, t);
    TransactionEffect(db, t);
    hide StockOk, Commit, HonestFor, AsksFor, Answer, AllocsGrow, Hushed, Announced, Declined;
    forall id | id in after.lots
      ensures StandsWell(world, after.lots[id])
    {
      if Arrives(db.lots, after.lots, id) {
        HonestAnswer(world, db, t, after.lots[id].location.value);
      } else if id in db.lots {
        assert StandsWell(world, db.lots[id]) && SameLot(db.lots[id], after.lots[id]);
      }
    }
  }

  lemma {:induction false} RunStandsWell(world: map<Uuid, Site>, s: System.Sys, steps: seq<System.Step>)
    requires AgreementRuns.Good(world, s) && AllStandWell(world, s.inv)
    ensures AllStandWell(world, System.Run(world, s, steps).inv)
    decreases |steps|
  {
    if steps != [] {
      assert StockOk(s.inv);
      hide AgreementRuns.Good, System.Next, StockOk, AllStandWell, Commit, HonestFor;
      var t := System.Next(world, s, steps[0]);
      AgreementRuns.NextTransacts(world, s, steps[0]);
      if t.inv != s.inv {
        var tr :| HonestFor(world, s.inv, tr) && t.inv == Commit(s.inv, tr);
        CommitStandsWell(world, s.inv, tr);
      }
      AgreementRuns.GoodNext(world, s, steps[0]);
      RunStandsWell(world, t, steps[1..]);
    }
  }

  /** In every reachable state of the system every placed lot stands in a storage zone of
      its own warehouse, at a location of its own storage type. */
  lemma LotsStandWhereTheyBelong(world: map<Uuid, Site>, now: Time, steps: seq<System.Step>)
    ensures AllStandWell(world, System.Run(world, System.Empty(world, now), steps).inv)
  {
    AgreementRuns.EmptyAgrees(world, now);
    RunStandsWell(world, System.Empty(world, now), steps);
  }
}
