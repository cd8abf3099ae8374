/** Every run of the inventory service keeps stock, ledger and event log in
    agreement, and no constraint of the schema ever fires. */
module InventorySafety {
  import opened Domain
  import opened Events
  import opened InventoryRules
  import opened Totals
  import opened StockInvariant
  import opened ReserveDecision
  import opened Closing
  import opened LedgerInvariant
  import opened EventLog

  ghost predicate Sound(world: map<Uuid, Site>, db: Db) {
    StockOk(db) && LedgerOk(world, db) && LogOk(db)
  }

  /** The lookups made by the transaction tell the truth about the location they ask for. */
  predicate HonestFor(world: map<Uuid, Site>, db: Db, t: Transaction) {
    match t
    case Changing(_, Adjust, q, reply, _) =>
      q.stock in db.lots && db.lots[q.stock].location.Some? ==> Honest(world, db.lots[q.stock].location.value, reply)
    case Changing(_, Move, q, reply, _) => Honest(world, q.to, reply)
    case Consuming(_, ProductPlacementAssigned(_, _, l, _), reply) => Honest(world, l, reply)
    case _ => true
  }

  /** New ids are new, and the product service hands out products with a size. */
  predicate WellMet(db: Db, t: Transaction) {
    match t
    case Receiving(_, _, product, _, newId) => newId !in db.lots && HasSize(product)
    case Changing(_, _, _, _, newId) => newId !in db.lots
    case _ => true
  }

  /** The ways a transaction may fail without a business decision: a lookup got no
      answer, or a cancellation overtook the request it cancels. */
  predicate OnlyTransient(o: Outcome<Db>) {
    o.Err? && o.error.Broken? ==> o.error.defect == Unreachable || o.error.defect == NotYetProcessed
  }

  lemma ReserveSafe(world: map<Uuid, Site>, db: Db, now: Time, r: Uuid, w: Uuid, lines: seq<Line>, expires: Time)
    requires Sound(world, db)
    ensures var o := Reserve(db, now, r, w, lines, expires);
            (o.Ok? ==> Sound(world, o.value)) && OnlyTransient(o)
  {
    ReserveCharges(world, db, now, r, w, lines, expires);
    ReserveLogs(db, now, r, w, lines, expires);
    if r !in db.bookings {
      ReserveIs(db, now, r, w, lines, expires);
    }
  }

  lemma ReleaseSafe(world: map<Uuid, Site>, db: Db, r: Uuid, expired: bool)
    requires Sound(world, db)
    ensures var o := Release(db, r, expired);
            (o.Ok? ==> Sound(world, o.value)) && OnlyTransient(o)
  {
    ReleaseKeeps(db, r, expired);
    ReleaseCharges(world, db, r, expired);
    ReleaseLogs(db, r, expired);
  }

  lemma ShipSafe(world: map<Uuid, Site>, db: Db, now: Time, r: Uuid, w: Uuid, s: Uuid)
    requires Sound(world, db)
    ensures var o := Ship(db, now, r, w, s);
            (o.Ok? ==> Sound(world, o.value)) && OnlyTransient(o)
  {
    ShipKeeps(db, now, r, w, s);
    ShipCharges(world, db, now, r, w, s);
    ShipLogs(db, now, r, w, s);
  }

  lemma PlaceSafe(world: map<Uuid, Site>, db: Db, stock: Uuid, w: Uuid, l: Uuid, reply: Reply<Location>)
    requires Sound(world, db) && Honest(world, l, reply)
    ensures var o := Place(db, stock, w, l, reply);
            (o.Ok? ==> Sound(world, o.value)) && OnlyTransient(o)
  {
    PlaceKeeps(db, stock, w, l, reply);
    PlaceCharges(world, db, stock, w, l, reply);
    PlaceLogs(db, stock, w, l, reply);
  }

  lemma ReceiveSafe(world: map<Uuid, Site>, db: Db, now: Time, q: Receipt, product: Reply<Product>,
                    active: Reply<bool>, newId: Uuid)
    requires Sound(world, db)
    ensures var o := Receive(db, now, q, product, active, newId);
            (o.Ok? ==> Sound(world, o.value)) && (newId !in db.lots && HasSize(product) ==> OnlyTransient(o))
  {
    ReceiveKeeps(db, now, q, product, active, newId);
    ReceiveCharges(world, db, now, q, product, active, newId);
    ReceiveLogs(db, now, q, product, active, newId);
  }

  lemma ChangeSafe(world: map<Uuid, Site>, db: Db, now: Time, action: Action, q: Change, reply: Reply<Location>,
                   newId: Uuid)
    requires Sound(world, db) && HonestFor(world, db, Changing(now, action, q, reply, newId))
    ensures var o := ApplyChange(db, now, action, q, reply, newId);
            (o.Ok? ==> Sound(world, o.value)) && (newId !in db.lots ==> OnlyTransient(o))
  {
    hide AdjustLot, MoveLot, WriteOffLot, StockOk, LedgerOk, LogOk;
    if q.stock in db.lots {
      match action
      case Adjust =>
        AdjustKeeps(db, q, reply);
        AdjustCharges(world, db, q, reply);
        AdjustLogs(db, q, reply);
      case Move =>
        MoveKeeps(db, now, q, reply, newId);
        MoveCharges(world, db, now, q, reply, newId);
        MoveLogs(db, now, q, reply, newId);
      case WriteOff =>
        WriteOffKeeps(db, q);
        WriteOffCharges(world, db, q);
        WriteOffLogs(db, q);
    }
  }

  /** Recording a refusal after the savepoint was rolled back. */
  lemma RefuseSafe(world: map<Uuid, Site>, db: Db, now: Time, e: Event, code: Code)
    requires Sound(world, db) && Relevant(e)
    ensures Sound(world, Refuse(db, now, e, code))
  {
    var after := Refuse(db, now, e, code);
    if e.ReservationRequested? && e.reservation !in db.bookings {
      var b := Booking(e.warehouse, Rejected, now, None);
      NewBookingKeeps(db, e.reservation, b);
      EmitKeeps(db.(bookings := db.bookings[e.reservation := b]), Refusal(e, code));
    } else {
      EmitKeeps(db, Refusal(e, code));
    }
    LoadsKept(world, db, after);
    BatchLogged(db, db, Refusal(e, code), after);
  }

  lemma HandleSafe(world: map<Uuid, Site>, db: Db, now: Time, e: Event, reply: Reply<Location>)
    requires Sound(world, db) && HonestFor(world, db, Consuming(now, e, reply))
    ensures var o := Handle(db, now, e, reply);
            (o.Ok? ==> Sound(world, o.value)) && OnlyTransient(o)
  {
    hide Sound, Reserve, Release, Ship, Place, Refuse;
    if Relevant(e) {
      match e {
        case ReservationRequested(r, w, lines, expires) => ReserveSafe(world, db, now, r, w, lines, expires);
        case ReservationCancellationRequested(r, _, _) => ReleaseSafe(world, db, r, false);
        case ShipmentRequested(s, w, r) => ShipSafe(world, db, now, r, w, s);
        case ProductPlacementAssigned(stock, w, l, _) => PlaceSafe(world, db, stock, w, l, reply);
      }
      var o := Decide(db, now, e, reply);
      if o.Err? && Business(o.error) {
        RefuseSafe(world, db, now, e, o.error.code);
      }
    }
  }

  /** Every transaction keeps stock, ledger and log sound, whether it commits or rolls
      back; with new ids and sized products it can fail only for a transient reason. */
  lemma CommitSafe(world: map<Uuid, Site>, db: Db, t: Transaction)
    requires Sound(world, db) && HonestFor(world, db, t)
    ensures Sound(world, Commit(db, t))
    ensures WellMet(db, t) ==> OnlyTransient(Attempt(db, t))
  {
    hide Sound, Handle, Receive, ApplyChange, Release;
    match t
    case Receiving(now, q, product, active, newId) => ReceiveSafe(world, db, now, q, product, active, newId);
    case Changing(now, action, q, reply, newId) => ChangeSafe(world, db, now, action, q, reply, newId);
    case Consuming(now, e, reply) => HandleSafe(world, db, now, e, reply);
    case Expiring(r) => ReleaseSafe(world, db, r, true);
  }

  /** What a reader of the tables may rely on. */
  ghost predicate Consistent(world: map<Uuid, Site>, db: Db) {
    && (forall id | id in db.lots ::
          && 0 <= db.lots[id].reserved <= db.lots[id].quantity <= 1_000_000_000
          && db.lots[id].unit.weight > 0.0 && db.lots[id].unit.volume > 0.0
          && (db.lots[id].location.None? ==> db.lots[id].reserved == 0)
          && db.lots[id].reserved == Held(db.allocs, db.bookings, id))
    && (forall l | l in db.ledger ::
          && l in world
          && db.ledger[l].load == Total(db.lots, AtLocation(l)).load
          && db.ledger[l].load.weight <= world[l].limit.weight + 0.000000001
          && db.ledger[l].load.volume <= world[l].limit.volume + 0.000000001)
  }

  lemma SoundMeans(world: map<Uuid, Site>, db: Db)
    requires Sound(world, db)
    ensures Consistent(world, db)
  {
    forall id | id in db.lots ensures LotOk(db, id) && db.lots[id].quantity <= 1_000_000_000 { assert LotOk(db, id); }
    forall l | l in db.ledger ensures RowTrue(world, db, l) { assert RowTrue(world, db, l); }
  }

  ghost predicate HonestRun(world: map<Uuid, Site>, db: Db, ts: seq<Transaction>)
    decreases |ts|
  {
    ts == [] || (HonestFor(world, db, ts[0]) && HonestRun(world, Commit(db, ts[0]), ts[1..]))
  }

  /** Over any run from the empty database: reserved units are exactly what confirmed
      reservations hold, every ledger row is the load of its location and within its
      limit, and the log replays to the tables. */
  lemma {:induction false} RunSafe(world: map<Uuid, Site>, db: Db, ts: seq<Transaction>)
    requires Sound(world, db) && HonestRun(world, db, ts)
    ensures Sound(world, Run(db, ts)) && Consistent(world, Run(db, ts))
    decreases |ts|
  {
    hide Sound, Consistent, Commit;
    if ts == [] {
      SoundMeans(world, db);
    } else {
      CommitSafe(world, db, ts[0]);
      RunSafe(world, Commit(db, ts[0]), ts[1..]);
    }
  }
}
