/** Agreement between the reservation service and the inventory service in every
    reachable state, whatever the scheduler does. */
module AgreementRuns {
  import opened Domain
  import opened InventoryRules
  import opened StockInvariant
  import opened InventorySafety
  import opened Effects
  import opened Talk
  import opened System
  import opened SystemLogs
  import opened Agreement
  import opened AgreementKept
  import R = ReservationRules
  import S = ShipmentRules
  import P = PlacementRules
  import W = OccupancyRules

  /** The inventory service moved by one of its transactions, on honest lookups, or not at all. */
  ghost predicate Transacts(world: map<Uuid, Site>, db: Db, after: Db) {
    after == db || exists t :: HonestFor(world, db, t) && after == Commit(db, t)
  }

  lemma NextTransacts(world: map<Uuid, Site>, s: Sys, a: Step)
    ensures Transacts(world, s.inv, Next(world, s, a).inv)
  {
    hide Commit, HonestFor, R.Create, R.Cancel, S.Create, S.Transition, P.Assign, W.SetStatus, WellMet;
    hide R.Handle, S.Handle, P.Handle, W.Handle, P.Due, Recognised;
    match a
    case Command(t) =>
      assert Proper(world, s, t) ==> HonestFor(world, s.inv, t);
    case Expire(r) =>
      ExpiringHonest(world, s.inv, r);
    case Deliver(consumer, ref, reply) =>
      if consumer == Inventory && ref.index < |Log(s, ref.source)| {
        var t := Consuming(s.now, Log(s, ref.source)[ref.index], reply);
        HandledCommits(s.inv, t);
        assert HonestFor(world, s.inv, t) ==> Transacts(world, s.inv, Commit(s.inv, t));
      }
    case _ =>
  }

  lemma ExpiringHonest(world: map<Uuid, Site>, db: Db, r: Uuid)
    ensures HonestFor(world, db, Expiring(r))
  {
  }

  lemma HandledCommits(db: Db, t: Transaction)
    requires t.Consuming?
    ensures InventoryRules.Handle(db, t.now, t.event, t.reply).Ok? ==>
              Commit(db, t) == InventoryRules.Handle(db, t.now, t.event, t.reply).value
  {
    hide InventoryRules.Handle;
  }

  /** The inventory stays sound, keeps its decisions and speaks consistently. */
  lemma TransactsSafely(world: map<Uuid, Site>, db: Db, after: Db)
    requires Sound(world, db) && TalkOk(db) && Transacts(world, db, after)
    ensures Sound(world, after) && TalkOk(after) && Grows(db, after)
  {
    assert StockOk(db);
    hide Sound, TalkOk, Grows, Commit, HonestFor, StockOk;
    GrowsReflexive(db);
    if after != db {
      var t :| HonestFor(world, db, t) && after == Commit(db, t);
      CommitSafe(world, db, t);
      TransactionTalk(db, t);
      TransactionEffect(db, t);
    }
  }

  // ----- one step -----

  /** A transaction that consumes nothing. */
  lemma AfterTransaction(world: map<Uuid, Site>, s: Sys, tr: Transaction, t: Sys)
    requires Agree(s) && StockOk(s.inv) && !tr.Consuming? && t == s.(inv := Commit(s.inv, tr)) && TalkOk(t.inv)
    ensures Requests(t) && Heard(t)
  {
    TransactionEffect(s.inv, tr);
    KeysKept(s.inv, tr);
    hide TalkOk, Grows, Commit, Announced, Declined, Hushed, Heard, Requests, StockOk;
    MovedWithoutNews(s, t);
    RequestsAfterMove(s, t);
    HeardAfterMove(s, t);
  }

  lemma KeysKept(db: Db, tr: Transaction)
    requires StockOk(db) && !tr.Consuming?
    ensures Commit(db, tr).bookings.Keys == db.bookings.Keys
  {
    hide StockOk, ApplyChange, Receive, Grows, Hushed, GiveBack, RowsOf, ItemsOf;
    match tr
    case Receiving(_, _, _, _, _) => CommandEffect(db, tr); HushedKeys(db, Commit(db, tr));
    case Changing(_, _, _, _, _) => CommandEffect(db, tr); HushedKeys(db, Commit(db, tr));
    case Expiring(r) =>
  }

  lemma HushedKeys(db: Db, after: Db)
    requires Hushed(db, after)
    ensures after.bookings == db.bookings
  {
  }

  lemma AfterHandled(s: Sys, ref: Ref, reply: Reply<Location>, t: Sys)
    requires Agree(s) && StockOk(s.inv) && ref.index < |Log(s, ref.source)|
    requires var o := InventoryRules.Handle(s.inv, s.now, Log(s, ref.source)[ref.index], reply);
             o.Ok? && t == s.(inv := o.value, done := s.done + {Mark(Inventory, ref)})
    requires TalkOk(t.inv)
    ensures Requests(t) && Heard(t)
  {
    assert Typed(s) && Requests(s) && MarksReal(s) && Heard(s);
    hide Agree, StockOk, InventoryRules.Handle, TalkOk, Requests, Heard, Typed, MarksReal, InventoryMoved;
    if Log(s, ref.source)[ref.index].ReservationRequested? {
      AfterRequest(s, ref, reply, t);
    } else {
      AfterRecall(s, ref, reply, t);
    }
    RequestsAfterMove(s, t);
    HeardAfterMove(s, t);
  }

  lemma AfterDelivery(world: map<Uuid, Site>, s: Sys, consumer: Service, ref: Ref, reply: Reply<Location>)
    requires Agree(s) && StockOk(s.inv)
    requires TalkOk(DeliverTo(world, s, consumer, ref, reply).inv)
    ensures var t := DeliverTo(world, s, consumer, ref, reply); Requests(t) && Heard(t)
  {
    assert Typed(s) && Requests(s) && MarksReal(s) && Heard(s) && TalkOk(s.inv);
    hide Agree, StockOk, InventoryRules.Handle, TalkOk, Requests, Heard, Typed, MarksReal;
    hide S.Handle, P.Handle, W.Handle, R.Handle, HonestFor;
    var t := DeliverTo(world, s, consumer, ref, reply);
    if t != s {
      match consumer
      case Inventory => AfterHandled(s, ref, reply, t);
      case Reservations => AfterNews(s, ref, t);
      case Shipments => Untouched(s, t);
      case Placements => Untouched(s, t);
      case Warehouses => Untouched(s, t);
    }
  }

  lemma AfterAny(world: map<Uuid, Site>, s: Sys, a: Step)
    requires Agree(s) && StockOk(s.inv) && TalkOk(Next(world, s, a).inv)
    ensures var t := Next(world, s, a); Requests(t) && Heard(t)
  {
    assert Typed(s) && Requests(s) && MarksReal(s) && Heard(s) && TalkOk(s.inv);
    hide Agree, StockOk, TalkOk, Requests, Heard, Typed, MarksReal, Commit, HonestFor, DeliverTo;
    hide R.Create, R.Cancel, S.Create, S.Transition, P.Assign, W.SetStatus, Proper, P.Due, Recognised;
    var t := Next(world, s, a);
    match a
    case Command(tr) =>
      assert Proper(world, s, tr) ==> !tr.Consuming? by { ProperCommand(world, s, tr); }
      if t != s { AfterTransaction(world, s, tr, t); }
    case Expire(r) => if t != s { AfterTransaction(world, s, Expiring(r), t); }
    case Deliver(consumer, ref, reply) => AfterDelivery(world, s, consumer, ref, reply);
    case Book(q, id) => if t != s { AfterBook(s, q, id, t); }
    case Cancel(r) => if t != s { AfterCancel(s, r, t); }
    case _ => Untouched(s, t);
  }

  lemma ProperCommand(world: map<Uuid, Site>, s: Sys, tr: Transaction)
    ensures Proper(world, s, tr) ==> !tr.Consuming?
  {
  }

  /** Every step keeps the agreement. */
  lemma AgreeNext(world: map<Uuid, Site>, s: Sys, a: Step)
    requires Sound(world, s.inv) && Agree(s)
    ensures var t := Next(world, s, a); Sound(world, t.inv) && Agree(t) && Grows(s.inv, t.inv)
  {
    assert StockOk(s.inv) && Typed(s) && MarksReal(s) && TalkOk(s.inv);
    var t := Next(world, s, a);
    hide Sound, Next, StockOk, TalkOk, Requests, Heard, Typed, MarksReal, Grows, Transacts, AllExtend, Marks;
    NextTransacts(world, s, a);
    TransactsSafely(world, s.inv, t.inv);
    AfterAny(world, s, a);
    NextExtends(world, s, a);
    NextMarks(world, s, a);
  }

  // ----- every run -----

  ghost predicate Good(world: map<Uuid, Site>, s: Sys) {
    Sound(world, s.inv) && Agree(s)
  }

  lemma GoodNext(world: map<Uuid, Site>, s: Sys, a: Step)
    requires Good(world, s)
    ensures Good(world, Next(world, s, a))
  {
    hide Sound, Agree, Next, Grows;
    AgreeNext(world, s, a);
  }

  lemma EmptyAgrees(world: map<Uuid, Site>, now: Time)
    ensures Good(world, Empty(world, now))
  {
  }

  lemma {:induction false} RunAgrees(world: map<Uuid, Site>, s: Sys, steps: seq<Step>)
    requires Good(world, s)
    ensures Good(world, System.Run(world, s, steps)) && Grows(s.inv, System.Run(world, s, steps).inv)
    decreases |steps|
  {
    hide Grows, Agree, Sound, Next;
    if steps == [] {
      GrowsReflexive(s.inv);
    } else {
      AgreeNext(world, s, steps[0]);
      RunAgrees(world, Next(world, s, steps[0]), steps[1..]);
      GrowsTransitive(s.inv, Next(world, s, steps[0]).inv, System.Run(world, s, steps).inv);
    }
  }

  /** In every reachable state a terminal status of the reservation service is the
      inventory's status, and once every event between the two services has its inbox
      marker the two agree on every reservation. */
  lemma ReservationsAgree(world: map<Uuid, Site>, now: Time, steps: seq<Step>, r: Uuid)
    ensures var s := System.Run(world, Empty(world, now), steps);
            r in s.resv.rows && (R.Terminal(s.resv.rows[r].life) || Settled(s)) ==>
              r in s.inv.bookings && s.resv.rows[r].life == R.Known(s.inv.bookings[r].status)
  {
    hide Agree, Sound, Settled, Next;
    var s := System.Run(world, Empty(world, now), steps);
    EmptyAgrees(world, now);
    RunAgrees(world, Empty(world, now), steps);
    if r in s.resv.rows {
      if R.Terminal(s.resv.rows[r].life) {
        TerminalAgrees(s, r);
      } else if Settled(s) {
        SettledAgrees(s, r);
      }
    }
  }

  /** In every reachable state the log of the inventory ends a reservation exactly once when
      it is cancelled, expired or completed, and not at all otherwise: however cancel, expiry
      and shipment race, its units are given back or deducted once. */
  lemma ClosedExactlyOnce(world: map<Uuid, Site>, now: Time, steps: seq<Step>, r: Uuid)
    ensures var db := System.Run(world, Empty(world, now), steps).inv;
            Closings(db.outbox, r) == if r in db.bookings
                && db.bookings[r].status in {Cancelled, ExpiredStatus, Completed} then 1 else 0
  {
    EmptyAgrees(world, now);
    RunAgrees(world, Empty(world, now), steps);
    hide System.Run, TalkOk, Closings;
    ClosingsCount(System.Run(world, Empty(world, now), steps).inv, r);
  }
}
