/** Why the inventory refuses commands: only the decision on a command writes a refusal, and
    no command of the system is ever refused for a wrong warehouse. */
module Refusals {
  import opened Domain
  import opened Events
  import opened InventoryRules
  import opened StockInvariant
  import opened ReserveDecision
  import opened Closing
  import opened LedgerInvariant
  import opened InventorySafety
  import opened Effects
  import opened System
  import opened AgreementRuns
  import opened Addressing
  import Locality
  import P = PlacementRules
  import R = ReservationRules
  import S = ShipmentRules
  import W = OccupancyRules

  /** The reason of a refusal. */
  function ReasonOf(e: Event): Option<Code> {
    match e
    case ReservationRejected(_, _, _, _, code) => Some(code)
    case ReservationCancellationRejected(_, _, _, code) => Some(code)
    case ShipmentRejected(_, _, _, code) => Some(code)
    case PlacementRejected(_, _, _, code) => Some(code)
    case _ => None
  }

  // ----- whatever succeeds refuses nothing -----

  ghost predicate Accepts(log: seq<Event>, longer: seq<Event>) {
    log <= longer && forall i | |log| <= i < |longer| :: ReasonOf(longer[i]).None?
  }

  lemma AcceptsOne(a: seq<Event>, b: seq<Event>, e: Event)
    requires Accepts(a, b) && ReasonOf(e).None?
    ensures Accepts(a, b + [e])
  {
  }

  lemma ChargeAccepts(db: Db, x: Lot, l: Uuid, delta: int, reply: Reply<Location>)
    ensures var o := Charge(db, x, l, delta, reply); o.Ok? ==> Accepts(db.outbox, o.value.outbox)
  {
    hide Settle, Times, Admit;
  }

  lemma WithdrawAccepts(db: Db, id: Uuid, x: Lot, n: int)
    ensures var o := Withdraw(db, id, x, n); o.Ok? ==> Accepts(db.outbox, o.value.outbox)
  {
    if x.location.Some? { ChargeAccepts(db, x, x.location.value, -n, NoAnswer); }
    hide Charge;
  }

  lemma ChangeAccepts(db: Db, t: Transaction)
    requires t.Changing?
    ensures Attempt(db, t).Ok? ==> Accepts(db.outbox, Attempt(db, t).value.outbox)
  {
    hide AdjustLot, MoveLot, WriteOffLot;
    var q := t.change;
    if q.stock in db.lots {
      match t.action
      case Adjust => AdjustAccepts(db, q, t.reply);
      case Move => MoveAccepts(db, t.now, q, t.reply, t.newId);
      case WriteOff => WriteOffAccepts(db, q);
    }
  }

  lemma AdjustAccepts(db: Db, q: Change, reply: Reply<Location>)
    requires q.stock in db.lots
    ensures var o := AdjustLot(db, q, reply); o.Ok? ==> Accepts(db.outbox, o.value.outbox)
  {
    var x := db.lots[q.stock];
    if AdjustLot(db, q, reply).Ok? {
      AdjustLog(db, q, reply);
      if x.location.Some? { ChargeAccepts(db, x, x.location.value, q.quantity - x.quantity, reply); }
      hide AdjustLot, Charge;
    }
  }

  lemma WriteOffAccepts(db: Db, q: Change)
    requires q.stock in db.lots
    ensures var o := WriteOffLot(db, q); o.Ok? ==> Accepts(db.outbox, o.value.outbox)
  {
    WithdrawAccepts(db, q.stock, db.lots[q.stock], q.quantity);
    hide Withdraw;
  }

  lemma MoveAccepts(db: Db, now: Time, q: Change, reply: Reply<Location>, newId: Uuid)
    requires q.stock in db.lots
    ensures var o := MoveLot(db, now, q, reply, newId); o.Ok? ==> Accepts(db.outbox, o.value.outbox)
  {
    var x := db.lots[q.stock];
    if MoveLot(db, now, q, reply, newId).Ok? {
      MoveSteps(db, now, q, reply, newId);
      ChargeAccepts(db, x, q.to, q.quantity, reply);
      ChargeFrame(db, x, q.to, q.quantity, reply);
      hide MoveLot, Charge, Withdraw;
      var charged := Charge(db, x, q.to, q.quantity, reply).value;
      var copy := x.(location := Some(q.to), quantity := q.quantity, reserved := 0, created := now);
      WithdrawAccepts(charged.(lots := charged.lots[newId := copy]), q.stock, x, q.quantity);
    }
  }

  lemma PlaceAccepts(db: Db, stock: Uuid, w: Uuid, l: Uuid, reply: Reply<Location>)
    ensures var o := Place(db, stock, w, l, reply); o.Ok? ==> Accepts(db.outbox, o.value.outbox)
  {
    if stock in db.lots { ChargeAccepts(db, db.lots[stock], l, db.lots[stock].quantity, reply); }
    hide Charge;
  }

  lemma {:induction false} ShipRowsAccepts(db: Db, now: Time, rows: seq<Alloc>)
    ensures var o := ShipRows(db, now, rows); o.Ok? ==> Accepts(db.outbox, o.value.outbox)
    decreases |rows|
  {
    if rows != [] && ShipRow(db, now, rows[0]).Ok? {
      ShipRowAccepts(db, now, rows[0]);
      hide ShipRow;
      ShipRowsAccepts(ShipRow(db, now, rows[0]).value, now, rows[1..]);
    }
  }

  lemma ShipRowAccepts(db: Db, now: Time, a: Alloc)
    ensures var o := ShipRow(db, now, a); o.Ok? ==> Accepts(db.outbox, o.value.outbox)
  {
    if a.stock in db.lots && db.lots[a.stock].location.Some? {
      ChargeAccepts(db, db.lots[a.stock], db.lots[a.stock].location.value, -a.quantity, NoAnswer);
    }
    hide Charge;
  }

  lemma ShipAccepts(db: Db, now: Time, r: Uuid, w: Uuid, s: Uuid)
    ensures var o := Ship(db, now, r, w, s); o.Ok? ==> Accepts(db.outbox, o.value.outbox)
  {
    ShipRowsAccepts(db, now, RowsOf(db.allocs, r));
    hide ShipRows, RowsOf, ItemsOf;
  }

  lemma ReleaseAccepts(db: Db, r: Uuid, expired: bool)
    ensures var o := Release(db, r, expired); o.Ok? ==> Accepts(db.outbox, o.value.outbox)
  {
    hide RowsOf, GiveBack, ItemsOf;
  }

  lemma ReserveAccepts(db: Db, now: Time, r: Uuid, w: Uuid, lines: seq<Line>, expires: Time)
    requires StockOk(db)
    ensures var o := Reserve(db, now, r, w, lines, expires); o.Ok? ==> Accepts(db.outbox, o.value.outbox)
  {
    if r !in db.bookings { ReserveIs(db, now, r, w, lines, expires); }
    hide StockOk, TakeLines, Picks, Acceptable, Reserving;
  }

  /** Only the decision on a command writes a refusal, and only as its last event. */
  lemma HandleRefuses(db: Db, now: Time, e: Event, reply: Reply<Location>)
    requires StockOk(db) && Handle(db, now, e, reply).Ok?
    ensures var after := Handle(db, now, e, reply).value;
            if Relevant(e) && Decide(db, now, e, reply).Err? then
              exists refusal :: after.outbox == db.outbox + [refusal]
                             && ReasonOf(refusal) == Some(Decide(db, now, e, reply).error.code)
            else Accepts(db.outbox, after.outbox)
  {
    hide StockOk, Accepts, Reserve, Release, Ship, Place;
    match e {
      case ReservationRequested(r, w, lines, expires) => ReserveAccepts(db, now, r, w, lines, expires);
      case ReservationCancellationRequested(r, _, _) => ReleaseAccepts(db, r, false);
      case ShipmentRequested(s, w, r) => ShipAccepts(db, now, r, w, s);
      case ProductPlacementAssigned(stock, w, l, _) => PlaceAccepts(db, stock, w, l, reply);
      case _ => assert Accepts(db.outbox, db.outbox) by { Nothing(db.outbox); }
    }
    if Relevant(e) && Decide(db, now, e, reply).Err? {
      var refusal := Refusal(e, Decide(db, now, e, reply).error.code);
      assert Handle(db, now, e, reply).value.outbox == db.outbox + [refusal];
    }
  }

  lemma Nothing(log: seq<Event>)
    ensures Accepts(log, log)
  {
  }

  // ----- why a command may be refused -----

  predicate NotWrong(o: Outcome<Db>) {
    o.Err? && o.error.Fault? ==> o.error.code != WrongWarehouse
  }

  lemma {:induction false} TakeAllErr(db: Db, r: Uuid, offers: seq<Offer>, n: int)
    ensures TakeAll(db, r, offers, n).Err? ==> TakeAll(db, r, offers, n).error.Broken?
    decreases |offers|
  {
    if offers != [] && Min(n, offers[0].free) > 0 {
      var o := Take(db, r, offers[0].stock, Min(n, offers[0].free));
      if o.Ok? { TakeAllErr(o.value, r, offers[1..], n - Min(n, offers[0].free)); }
    }
  }

  lemma {:induction false} TakeLinesErr(db: Db, r: Uuid, w: Uuid, today: int, lines: seq<Line>, seen: set<Uuid>)
    ensures NotWrong(TakeLines(db, r, w, today, lines, seen))
    decreases |lines|
  {
    hide TakeAll, Offers, EligibleLots;
    if lines != [] {
      var offers := Offers(EligibleLots(db, w, lines[0].product, today));
      TakeAllErr(db, r, offers, lines[0].quantity);
      var o := TakeAll(db, r, offers, lines[0].quantity);
      if o.Ok? { TakeLinesErr(o.value.db, r, w, today, lines[1..], seen + {lines[0].product}); }
    }
  }

  lemma ReserveErr(db: Db, now: Time, r: Uuid, w: Uuid, lines: seq<Line>, expires: Time)
    ensures NotWrong(Reserve(db, now, r, w, lines, expires))
  {
    TakeLinesErr(Booked(db, r, w, expires), r, w, Today(now), lines, {});
    hide TakeLines;
  }

  lemma ShipErr(db: Db, now: Time, r: Uuid, w: Uuid, s: Uuid)
    requires StockOk(db) && Locality.BookingHere(db, r, w)
    ensures NotWrong(Ship(db, now, r, w, s))
  {
    if IsConfirmed(db.bookings, r) {
      RowsAreBacked(db, r);
      ShipRowsIs(db, now, RowsOf(db.allocs, r));
    }
    hide StockOk, RowsOf, ShipRows, ItemsOf, Backed, Deducting;
  }

  lemma ChargeErr(world: map<Uuid, Site>, db: Db, x: Lot, l: Uuid, delta: int, reply: Reply<Location>)
    requires Honest(world, l, reply) && LiesIn(world, l, x.warehouse)
    ensures NotWrong(Charge(db, x, l, delta, reply))
  {
    hide Times, Plus;
  }

  lemma PlaceErr(world: map<Uuid, Site>, db: Db, stock: Uuid, w: Uuid, l: Uuid, reply: Reply<Location>)
    requires Honest(world, l, reply) && LiesIn(world, l, w) && LotOf(db, stock, w)
    ensures NotWrong(Place(db, stock, w, l, reply))
  {
    ChargeErr(world, db, db.lots[stock], l, db.lots[stock].quantity, reply);
    hide Charge;
  }

  lemma ReleaseErr(db: Db, r: Uuid, expired: bool)
    requires StockOk(db)
    ensures NotWrong(Release(db, r, expired))
  {
    ReleaseKeeps(db, r, expired);
    hide StockOk, Release;
  }

  /** A command that names rows and a location of its own warehouse. */
  ghost predicate OwnCommand(world: map<Uuid, Site>, db: Db, e: Event) {
    if e.ProductPlacementAssigned? then LotOf(db, e.stock, e.warehouse) && LiesIn(world, e.location, e.warehouse)
    else Relevant(e) ==> Locality.BookingHere(db, e.reservation, e.warehouse)
  }

  lemma DecideErr(world: map<Uuid, Site>, db: Db, now: Time, e: Event, reply: Reply<Location>)
    requires StockOk(db) && Relevant(e) && OwnCommand(world, db, e) && HonestFor(world, db, Consuming(now, e, reply))
    ensures NotWrong(Decide(db, now, e, reply))
  {
    hide StockOk, Reserve, Release, Ship, Place, LotOf, LiesIn, Locality.BookingHere;
    match e {
      case ReservationRequested(r, w, lines, expires) => ReserveErr(db, now, r, w, lines, expires);
      case ReservationCancellationRequested(r, _, _) => ReleaseErr(db, r, false);
      case ShipmentRequested(s, w, r) => ShipErr(db, now, r, w, s);
      case ProductPlacementAssigned(stock, w, l, _) => PlaceErr(world, db, stock, w, l, reply);
    }
  }

  // ----- every run -----

  /** No refusal in the log gives a wrong warehouse as its reason. */
  ghost predicate NoneWrong(log: seq<Event>) {
    forall e | e in log :: ReasonOf(e) != Some(WrongWarehouse)
  }

  lemma AcceptedNoneWrong(log: seq<Event>, longer: seq<Event>)
    requires NoneWrong(log) && Accepts(log, longer)
    ensures NoneWrong(longer)
  {
    forall e | e in longer
      ensures ReasonOf(e) != Some(WrongWarehouse)
    {
      var i :| 0 <= i < |longer| && longer[i] == e;
      if i < |log| { assert log[i] == e; }
    }
  }

  lemma ConsumedNoneWrong(world: map<Uuid, Site>, db: Db, now: Time, e: Event, reply: Reply<Location>)
    requires StockOk(db) && OwnCommand(world, db, e) && HonestFor(world, db, Consuming(now, e, reply))
    requires NoneWrong(db.outbox) && Handle(db, now, e, reply).Ok?
    ensures NoneWrong(Handle(db, now, e, reply).value.outbox)
  {
    HandleRefuses(db, now, e, reply);
    if Relevant(e) {
      DecideErr(world, db, now, e, reply);
    }
    hide StockOk, Handle, Decide, OwnCommand, HonestFor, Accepts;
    var after := Handle(db, now, e, reply).value;
    if Accepts(db.outbox, after.outbox) { AcceptedNoneWrong(db.outbox, after.outbox); }
  }

  /** Commands over HTTP and the expiry worker refuse nothing. */
  lemma OthersAccept(db: Db, t: Transaction)
    requires !t.Consuming?
    ensures Accepts(db.outbox, Commit(db, t).outbox)
  {
    Nothing(db.outbox);
    hide Accepts, ApplyChange, Release;
    match t
    case Receiving(now, q, product, active, newId) => ReceiveAccepts(db, now, q, product, active, newId);
    case Changing(_, _, _, _, _) => ChangeAccepts(db, t);
    case Expiring(r) => ReleaseAccepts(db, r, true);
  }

  lemma ReceiveAccepts(db: Db, now: Time, q: Receipt, product: Reply<Product>, active: Reply<bool>, newId: Uuid)
    ensures var o := Receive(db, now, q, product, active, newId); o.Ok? ==> Accepts(db.outbox, o.value.outbox)
  {
  }

  /** How a step moves the inventory. */
  lemma InventoryMoves(world: map<Uuid, Site>, s: Sys, a: Step)
    ensures var t := Next(world, s, a);
            || t.inv == s.inv
            || (exists tr: Transaction :: !tr.Consuming? && t.inv == Commit(s.inv, tr))
            || (a.Deliver? && a.ref.index < |Log(s, a.ref.source)|
                && var e := Log(s, a.ref.source)[a.ref.index];
                   HonestFor(world, s.inv, Consuming(s.now, e, a.reply))
                   && InventoryRules.Handle(s.inv, s.now, e, a.reply) == Ok(t.inv))
  {
    hide Commit, InventoryRules.Handle, HonestFor, Recognised, R.Create, R.Cancel, R.Handle, S.Create, S.Transition;
    hide S.Handle;
    hide P.Handle, P.Assign, W.Handle, W.SetStatus, P.Due, WellMet;
    match a
    case Command(tr) => assert Proper(world, s, tr) ==> !tr.Consuming?;
    case Expire(r) => assert !Expiring(r).Consuming?;
    case _ =>
  }

  lemma NoneWrongNext(world: map<Uuid, Site>, s: Sys, a: Step)
    requires StockOk(s.inv) && NoneWrong(s.inv.outbox)
    requires forall source, j: nat | j < |Log(s, source)| :: OwnCommand(world, s.inv, Log(s, source)[j])
    ensures NoneWrong(Next(world, s, a).inv.outbox)
  {
    InventoryMoves(world, s, a);
    hide StockOk, NoneWrong, Next, OwnCommand, Commit, InventoryRules.Handle, HonestFor;
    var t := Next(world, s, a);
    if t.inv == s.inv {
    } else if exists tr: Transaction :: !tr.Consuming? && t.inv == Commit(s.inv, tr) {
      var tr: Transaction :| !tr.Consuming? && t.inv == Commit(s.inv, tr);
      OthersAccept(s.inv, tr);
      AcceptedNoneWrong(s.inv.outbox, t.inv.outbox);
    } else {
      ConsumedNoneWrong(world, s.inv, s.now, Log(s, a.ref.source)[a.ref.index], a.reply);
    }
  }

  /** In a reachable state every command is about rows and a location of its own warehouse. */
  lemma AllOwn(world: map<Uuid, Site>, now: Time, steps: seq<Step>)
    ensures var s := System.Run(world, Empty(world, now), steps);
            && StockOk(s.inv)
            && forall source, j: nat | j < |Log(s, source)| :: OwnCommand(world, s.inv, Log(s, source)[j])
  {
    var s := System.Run(world, Empty(world, now), steps);
    EmptyAgrees(world, now);
    RunAgrees(world, Empty(world, now), steps);
    hide System.Run;
    forall source, j: nat | j < |Log(s, source)|
      ensures OwnCommand(world, s.inv, Log(s, source)[j])
    {
      AssignmentsLieIn(world, now, steps, source, j);
      CommandsAreAddressed(world, now, steps, source, j, NoAnswer);
    }
  }

  /** In every reachable state no refusal that the inventory has ever written gives
      WRONG_WAREHOUSE as its reason. */
  lemma {:induction false} NeverWrongWarehouse(world: map<Uuid, Site>, now: Time, steps: seq<Step>)
    ensures NoneWrong(System.Run(world, Empty(world, now), steps).inv.outbox)
    decreases |steps|
  {
    if steps != [] {
      var init, a := steps[..|steps| - 1], steps[|steps| - 1];
      assert steps == init + [a];
      hide Next, System.Run, NoneWrong, OwnCommand, StockOk;
      NeverWrongWarehouse(world, now, init);
      AllOwn(world, now, init);
      NoneWrongNext(world, System.Run(world, Empty(world, now), init), a);
      RunOneMore(world, Empty(world, now), init, a);
    }
  }
}
