/** What inventory transactions tell the placement service: a lot without a location was
    announced when it came, and placing it is announced once. */
module PlacementLog {
  import opened Domain
  import opened Events
  import opened InventoryRules
  import opened StockInvariant
  import opened ReserveDecision
  import opened Closing
  import EventLog
  import opened Effects

  /** The log grew, and no lot was announced as received or placed. */
  ghost predicate Plain(log: seq<Event>, longer: seq<Event>) {
    log <= longer && forall i | |log| <= i < |longer| :: !longer[i].StockAdded? && !longer[i].GoodsReceived?
  }

  predicate IsReceived(log: seq<Event>, i: nat, id: Uuid) {
    i < |log| && log[i].GoodsReceived? && log[i].stock == id
  }

  /** Every new lot has a location or is announced as received. */
  ghost predicate Welcomed(db: Db, after: Db) {
    forall id | id in after.lots && id !in db.lots ::
      after.lots[id].location.Some? || exists i: nat :: |db.outbox| <= i && IsReceived(after.outbox, i, id)
  }

  /** The last new event may announce the placement of a lot that had no location before. */
  ghost predicate Shelved(db: Db, after: Db) {
    && |after.outbox| > |db.outbox|
    && Plain(db.outbox, after.outbox[..|after.outbox| - 1])
    && var e := after.outbox[|after.outbox| - 1];
       && e.StockAdded?
       && e.stock in db.lots && db.lots[e.stock].location.None?
       && e.stock in after.lots && after.lots[e.stock].location == Some(e.location)
  }

  /** The only new event announces the receipt of a lot. */
  ghost predicate Arrived(db: Db, after: Db) {
    && |after.outbox| == |db.outbox| + 1
    && db.outbox <= after.outbox
    && var e := after.outbox[|db.outbox|];
        e.GoodsReceived? && e.stock in after.lots && after.lots[e.stock].warehouse == e.warehouse
  }

  ghost predicate Settles(db: Db, after: Db) {
    Welcomed(db, after) && (Plain(db.outbox, after.outbox) || Shelved(db, after) || Arrived(db, after))
  }

  // ----- lots -----

  lemma CapsArePlain(log: seq<Event>, longer: seq<Event>, e: Event)
    requires EventLog.CapsOnly(log, longer) && !e.StockAdded? && !e.GoodsReceived?
    ensures Plain(log, longer + [e]) && Plain(log, longer)
  {
  }

  lemma ReceiveSettles(db: Db, now: Time, q: Receipt, product: Reply<Product>, active: Reply<bool>, newId: Uuid)
    ensures var o := Receive(db, now, q, product, active, newId); o.Ok? ==> Settles(db, o.value)
  {
    var o := Receive(db, now, q, product, active, newId);
    if o.Ok? { assert IsReceived(o.value.outbox, |db.outbox|, newId); }
  }

  lemma AdjustSettles(db: Db, q: Change, reply: Reply<Location>)
    requires EventLog.CapacityLogged(db) && q.stock in db.lots
    ensures var o := AdjustLot(db, q, reply); o.Ok? ==> Settles(db, o.value)
  {
    var x := db.lots[q.stock];
    var o := AdjustLot(db, q, reply);
    hide Charge, EventLog.CapacityLogged;
    if o.Ok? {
      var e := o.value.outbox[|o.value.outbox| - 1];
      if x.location.Some? && q.quantity != x.quantity {
        EventLog.ChargeLogged(db, x, x.location.value, q.quantity - x.quantity, reply);
        ChargeFrame(db, x, x.location.value, q.quantity - x.quantity, reply);
        CapsArePlain(db.outbox, Charge(db, x, x.location.value, q.quantity - x.quantity, reply).value.outbox, e);
      } else {
        CapsArePlain(db.outbox, db.outbox, e);
      }
    }
  }

  /** Withdrawing adds no lot and at most capacity events. */
  lemma WithdrawPlain(db: Db, id: Uuid, n: int)
    requires EventLog.CapacityLogged(db) && id in db.lots
    ensures var o := Withdraw(db, id, db.lots[id], n);
            o.Ok? ==> o.value.lots.Keys == db.lots.Keys && EventLog.CapsOnly(db.outbox, o.value.outbox)
  {
    var x := db.lots[id];
    if x.location.Some? {
      EventLog.ChargeLogged(db, x, x.location.value, -n, NoAnswer);
      ChargeFrame(db, x, x.location.value, -n, NoAnswer);
    }
    hide Charge, EventLog.CapacityLogged;
  }

  lemma WriteOffSettles(db: Db, q: Change)
    requires EventLog.CapacityLogged(db) && q.stock in db.lots
    ensures var o := WriteOffLot(db, q); o.Ok? ==> Settles(db, o.value)
  {
    WithdrawPlain(db, q.stock, q.quantity);
    hide Withdraw, EventLog.CapacityLogged;
    var o := WriteOffLot(db, q);
    if o.Ok? {
      CapsArePlain(db.outbox, Withdraw(db, q.stock, db.lots[q.stock], q.quantity).value.outbox,
          o.value.outbox[|o.value.outbox| - 1]);
    }
  }

  lemma MoveSettles(db: Db, now: Time, q: Change, reply: Reply<Location>, newId: Uuid)
    requires EventLog.CapacityLogged(db) && q.stock in db.lots
    ensures var o := MoveLot(db, now, q, reply, newId); o.Ok? ==> Settles(db, o.value)
  {
    var x := db.lots[q.stock];
    var o := MoveLot(db, now, q, reply, newId);
    hide Charge, Withdraw, EventLog.CapacityLogged;
    if o.Ok? {
      EventLog.ChargeLogged(db, x, q.to, q.quantity, reply);
      ChargeFrame(db, x, q.to, q.quantity, reply);
      var charged := Charge(db, x, q.to, q.quantity, reply).value;
      var copy := x.(location := Some(q.to), quantity := q.quantity, reserved := 0, created := now);
      var inserted := charged.(lots := db.lots[newId := copy]);
      EventLog.CapacityOnly(charged, inserted);
      WithdrawPlain(inserted, q.stock, q.quantity);
      var drawn := Withdraw(inserted, q.stock, x, q.quantity).value;
      CapsArePlain(db.outbox, drawn.outbox, o.value.outbox[|o.value.outbox| - 1]);
    }
  }

  // ----- reservations -----

  lemma OneEvent(db: Db, e: Event, after: Db)
    requires after.lots.Keys == db.lots.Keys && after.outbox == db.outbox + [e] && !e.StockAdded? && !e.GoodsReceived?
    ensures Settles(db, after)
  {
  }

  lemma ReleaseSettles(db: Db, r: Uuid, expired: bool)
    requires StockOk(db)
    ensures var o := Release(db, r, expired); o.Ok? ==> Settles(db, o.value)
  {
    if IsConfirmed(db.bookings, r) {
      ReleaseIs(db, r, expired);
      hide Release, StockOk, RowsOf, ItemsOf;
      var after := Release(db, r, expired).value;
      OneEvent(db, after.outbox[|db.outbox|], after);
    }
  }

  lemma ReserveSettles(db: Db, now: Time, e: Event, reply: Reply<Location>)
    requires StockOk(db) && e.ReservationRequested?
    ensures var o := Handle(db, now, e, reply); o.Ok? ==> Settles(db, o.value)
  {
    hide StockOk, Handle, Acceptable, Picks, ProductUnits, LineUnits, UnitsOf, Settles;
    if e.reservation in db.bookings {
      ReserveEffect(db, now, e.reservation, e.warehouse, e.lines, e.expires, reply);
      NothingSettles(db);
    } else {
      ReserveDecides(db, now, e.reservation, e.warehouse, e.lines, e.expires, reply);
      var after := Handle(db, now, e, reply).value;
      OneEvent(db, after.outbox[|db.outbox|], after);
    }
  }

  lemma NothingSettles(db: Db)
    ensures Settles(db, db)
  {
  }

  lemma ShipSettles(db: Db, now: Time, r: Uuid, w: Uuid, s: Uuid)
    requires StockOk(db) && EventLog.CapacityLogged(db)
    ensures var o := Ship(db, now, r, w, s); o.Ok? ==> Settles(db, o.value)
  {
    var o := Ship(db, now, r, w, s);
    if o.Ok? && IsConfirmed(db.bookings, r) {
      var rows := RowsOf(db.allocs, r);
      RowsAreBacked(db, r);
      ShipRowsIs(db, now, rows);
      EventLog.ShipRowsLogged(db, now, rows);
      hide StockOk, EventLog.CapacityLogged, ShipRows, RowsOf, ItemsOf, Backed, UnitsOf;
      CapsArePlain(db.outbox, ShipRows(db, now, rows).value.outbox, StockShipped(r, w, s, ItemsOf(db.lots, rows)));
    }
  }

  // ----- placing -----

  lemma PlaceSettles(db: Db, stock: Uuid, w: Uuid, l: Uuid, reply: Reply<Location>)
    requires EventLog.CapacityLogged(db)
    ensures var o := Place(db, stock, w, l, reply); o.Ok? ==> Settles(db, o.value)
  {
    var o := Place(db, stock, w, l, reply);
    hide Charge, EventLog.CapacityLogged;
    if o.Ok? && o.value != db {
      var x := db.lots[stock];
      EventLog.ChargeLogged(db, x, l, x.quantity, reply);
      ChargeFrame(db, x, l, x.quantity, reply);
      var caps := Charge(db, x, l, x.quantity, reply).value.outbox;
      CapsArePlain(db.outbox, caps, StockAdjusted(0, 0, 0, 0, 0, ""));
      assert o.value.outbox[..|o.value.outbox| - 1] == caps;
    }
  }

  /** After an assignment has been processed, its lot is placed, empty, or the assignment was refused. */
  lemma AssignmentAnswered(db: Db, now: Time, e: Event, reply: Reply<Location>)
    requires e.ProductPlacementAssigned?
    ensures var o := Handle(db, now, e, reply);
            o.Ok? && e.stock in o.value.lots && o.value.lots[e.stock].location.None?
                && o.value.lots[e.stock].quantity > 0 ==>
              && |o.value.outbox| > |db.outbox|
              && var a := o.value.outbox[|o.value.outbox| - 1]; a.PlacementRejected? && a.stock == e.stock
  {
    hide Charge;
    if e.stock in db.lots { ChargeFrame(db, db.lots[e.stock], e.location, db.lots[e.stock].quantity, reply); }
  }

  // ----- every transaction -----

  lemma RefuseSettles(db: Db, now: Time, e: Event, code: Code)
    requires Relevant(e)
    ensures Settles(db, Refuse(db, now, e, code))
  {
    OneEvent(db, Refusal(e, code), Refuse(db, now, e, code));
  }

  lemma HandleSettles(db: Db, now: Time, e: Event, reply: Reply<Location>)
    requires StockOk(db) && EventLog.CapacityLogged(db)
    ensures var o := Handle(db, now, e, reply); o.Ok? ==> Settles(db, o.value)
  {
    NothingSettles(db);
    hide StockOk, EventLog.CapacityLogged, Release, Ship, Place, Reserve, Refuse, Settles;
    if Relevant(e) {
      match e {
        case ReservationRequested(_, _, _, _) => ReserveSettles(db, now, e, reply);
        case ReservationCancellationRequested(r, _, _) => ReleaseSettles(db, r, false);
        case ShipmentRequested(s, w, r) => ShipSettles(db, now, r, w, s);
        case ProductPlacementAssigned(stock, w, l, _) => PlaceSettles(db, stock, w, l, reply);
      }
      var o := Decide(db, now, e, reply);
      if o.Err? && Business(o.error) { RefuseSettles(db, now, e, o.error.code); }
    }
  }

  lemma TransactionSettles(db: Db, t: Transaction)
    requires StockOk(db) && EventLog.CapacityLogged(db)
    ensures Settles(db, Commit(db, t))
  {
    NothingSettles(db);
    hide StockOk, EventLog.CapacityLogged, Release, Receive, AdjustLot, MoveLot, WriteOffLot, Handle, Settles;
    match t
    case Receiving(now, q, product, active, newId) => ReceiveSettles(db, now, q, product, active, newId);
    case Changing(now, action, q, reply, newId) =>
      if q.stock in db.lots {
        match action
        case Adjust => AdjustSettles(db, q, reply);
        case Move => MoveSettles(db, now, q, reply, newId);
        case WriteOff => WriteOffSettles(db, q);
      }
    case Consuming(now, e, reply) => HandleSettles(db, now, e, reply);
    case Expiring(r) => ReleaseSettles(db, r, true);
  }

  // ----- the log of placements -----

  /** A lot announced as received exists; one announced as placed is where it was placed,
      and is announced only once. */
  ghost predicate PlacedOnce(db: Db) {
    && (forall e | e in db.outbox && e.GoodsReceived? :: e.stock in db.lots)
    && (forall e | e in db.outbox && e.StockAdded? ::
        e.stock in db.lots && db.lots[e.stock].location == Some(e.location))
    && (forall i, k | 0 <= i < k < |db.outbox| && db.outbox[i].StockAdded? && db.outbox[k].StockAdded? ::
          db.outbox[i].stock != db.outbox[k].stock)
  }

  lemma PlacedOnceKept(db: Db, after: Db)
    requires PlacedOnce(db) && Grows(db, after) && Settles(db, after)
    ensures PlacedOnce(after)
  {
    var n := |db.outbox|;
    forall i | 0 <= i < |after.outbox| && after.outbox[i].StockAdded?
      ensures i < n || (Shelved(db, after) && i == |after.outbox| - 1)
      ensures i < n ==> after.outbox[i] in db.outbox
    {
      if i < n { assert after.outbox[i] == db.outbox[i]; }
    }
    forall e | e in after.outbox && e.GoodsReceived?
      ensures e.stock in after.lots
    {
      var i :| 0 <= i < |after.outbox| && after.outbox[i] == e;
      assert i < n ==> after.outbox[i] in db.outbox;
    }
    forall e | e in after.outbox && e.StockAdded?
      ensures e.stock in after.lots && after.lots[e.stock].location == Some(e.location)
    {
      var i :| 0 <= i < |after.outbox| && after.outbox[i] == e;
      if i < n { assert SameLot(db.lots[e.stock], after.lots[e.stock]); }
    }
    forall i, k | 0 <= i < k < |after.outbox| && after.outbox[i].StockAdded? && after.outbox[k].StockAdded?
      ensures after.outbox[i].stock != after.outbox[k].stock
    {
      if k < n { assert db.outbox[i].stock != db.outbox[k].stock; }
    }
  }
}
