/** The committed event log refines the tables: replaying it rebuilds the quantity
    and location of every lot, the reserved units of every product in every
    warehouse, and every row of the capacity ledger with its revision. */
module EventLog {
  import opened Domain
  import opened Events
  import opened InventoryRules
  import opened Totals
  import opened StockInvariant
  import opened ReserveDecision
  import opened Closing

  // ----- what a reader of the log knows about the lots -----

  datatype Seen = Seen(quantity: int, location: Option<Uuid>)

  type View = map<Uuid, Seen>

  function Less(view: View, stock: Uuid, n: int): View {
    if stock in view then view[stock := view[stock].(quantity := view[stock].quantity - n)] else view
  }

  function LessItems(view: View, items: seq<Item>): View {
    if items == [] then view else LessItems(Less(view, items[0].stock, items[0].quantity), items[1..])
  }

  function Observe(view: View, e: Event): View {
    match e
    case GoodsReceived(stock, _, _, n, _, _) => view[stock := Seen(n, None)]
    case StockAdded(stock, _, _, l, _) => if stock in view then view[stock := view[stock].(location := Some(l))]
        else view
    case StockMoved(stock, destination, _, _, n, _, to) => Less(view, stock, n)[destination := Seen(n, Some(to))]
    case StockWrittenOff(stock, _, _, n, _) => Less(view, stock, n)
    case StockAdjusted(stock, _, _, n, _, _) => if stock in view then view[stock := view[stock].(quantity := n)]
        else view
    case StockShipped(_, _, _, items) => LessItems(view, items)
    case _ => view
  }

  function Replay(log: seq<Event>): View {
    if log == [] then map[] else Observe(Replay(log[..|log| - 1]), log[|log| - 1])
  }

  function Snapshot(lots: map<Uuid, Lot>): View {
    map id | id in lots :: Seen(lots[id].quantity, lots[id].location)
  }

  // ----- what it knows about reserved units -----

  function ItemUnits(items: seq<Item>, product: Uuid): int {
    if items == [] then 0
    else (if items[0].product == product then items[0].quantity else 0) + ItemUnits(items[1..], product)
  }

  /** How an event changes the reserved units of a product in a warehouse. */
  function Delta(e: Event, warehouse: Uuid, product: Uuid): int {
    match e
    case StockReserved(_, w, lines, _) => if w == warehouse then LineUnits(lines, product) else 0
    case StockReservationCancelled(_, w, items) => if w == warehouse then -ItemUnits(items, product) else 0
    case ReservationExpired(_, w, items) => if w == warehouse then -ItemUnits(items, product) else 0
    case StockShipped(_, w, _, items) => if w == warehouse then -ItemUnits(items, product) else 0
    case _ => 0
  }

  function ReservedBy(log: seq<Event>, warehouse: Uuid, product: Uuid): int {
    if log == [] then 0
    else ReservedBy(log[..|log| - 1], warehouse, product) + Delta(log[|log| - 1], warehouse, product)
  }

  // ----- what it knows about the ledger -----

  predicate AboutLocation(e: Event, l: Uuid) {
    e.LocationCapacityChanged? && e.location == l
  }

  function LastCapacity(log: seq<Event>, l: Uuid): Option<(Load, nat)> {
    if log == [] then None
    else
      var e := log[|log| - 1];
      if AboutLocation(e, l) then Some((e.load, e.revision)) else LastCapacity(log[..|log| - 1], l)
  }

  function CountCapacity(log: seq<Event>, l: Uuid): nat {
    if log == [] then 0
    else CountCapacity(log[..|log| - 1], l) + if AboutLocation(log[|log| - 1], l) then 1 else 0
  }

  // ----- the refinement -----

  ghost predicate LotsLogged(db: Db) {
    Replay(db.outbox) == Snapshot(db.lots)
  }

  ghost predicate ReservedLogged(db: Db) {
    forall w, p :: ReservedBy(db.outbox, w, p) == Total(db.lots, ReservedFor(w, p)).units
  }

  /** The revision of a capacity event counts the events of its location so far. */
  ghost predicate Numbered(log: seq<Event>) {
    forall i | 0 <= i < |log| && log[i].LocationCapacityChanged? ::
      log[i].revision == CountCapacity(log[..i + 1], log[i].location)
  }

  ghost predicate CapacityLogged(db: Db) {
    && Numbered(db.outbox)
    && forall l ::
         && LastCapacity(db.outbox, l)
             == (if l in db.ledger then Some((db.ledger[l].load, db.ledger[l].revision)) else None)
         && CountCapacity(db.outbox, l) == if l in db.ledger then db.ledger[l].revision else 0
  }

  ghost predicate LogOk(db: Db) {
    LotsLogged(db) && ReservedLogged(db) && CapacityLogged(db)
  }

  // ----- appending to the log -----

  lemma Appended(log: seq<Event>, e: Event)
    ensures Replay(log + [e]) == Observe(Replay(log), e)
    ensures forall w, p :: ReservedBy(log + [e], w, p) == ReservedBy(log, w, p) + Delta(e, w, p)
    ensures forall l ::
              LastCapacity(log + [e], l) == if AboutLocation(e, l) then Some((e.load, e.revision))
              else LastCapacity(log, l)
    ensures forall l :: CountCapacity(log + [e], l) == CountCapacity(log, l) + if AboutLocation(e, l) then 1 else 0
  {
    assert (log + [e])[..|log|] == log;
  }

  lemma NumberedAppended(log: seq<Event>, e: Event)
    requires Numbered(log)
    requires e.LocationCapacityChanged? ==> e.revision == CountCapacity(log, e.location) + 1
    ensures Numbered(log + [e])
  {
    Appended(log, e);
    forall i | 0 <= i < |log + [e]| && (log + [e])[i].LocationCapacityChanged?
      ensures (log + [e])[i].revision == CountCapacity((log + [e])[..i + 1], (log + [e])[i].location)
    {
      if i < |log| {
        assert (log + [e])[..i + 1] == log[..i + 1];
      } else {
        assert (log + [e])[..i + 1] == log + [e];
      }
    }
  }

  /** The log grew by capacity events only. */
  ghost predicate CapsOnly(log: seq<Event>, longer: seq<Event>) {
    && log <= longer
    && forall i | |log| <= i < |longer| :: longer[i].LocationCapacityChanged?
  }

  lemma {:induction false} CapsChangeNothing(log: seq<Event>, longer: seq<Event>)
    requires CapsOnly(log, longer)
    ensures Replay(longer) == Replay(log)
    ensures forall w, p :: ReservedBy(longer, w, p) == ReservedBy(log, w, p)
    decreases |longer|
  {
    if |longer| == |log| {
      assert longer == log;
    } else {
      var shorter := longer[..|longer| - 1];
      CapsChangeNothing(log, shorter);
      assert longer == shorter + [longer[|longer| - 1]];
      Appended(shorter, longer[|longer| - 1]);
    }
  }

  /** A transaction that charges locations and then announces one change. */
  lemma Announced(db: Db, caps: seq<Event>, e: Event, after: Db)
    requires LotsLogged(db) && ReservedLogged(db)
    requires CapsOnly(db.outbox, caps) && after.outbox == caps + [e]
    requires Snapshot(after.lots) == Observe(Snapshot(db.lots), e)
    requires forall w, p ::
              Total(after.lots, ReservedFor(w, p)).units == Total(db.lots, ReservedFor(w, p)).units + Delta(e, w, p)
    ensures LotsLogged(after) && ReservedLogged(after)
  {
    CapsChangeNothing(db.outbox, caps);
    Appended(caps, e);
  }

  lemma ChargeLogged(db: Db, x: Lot, l: Uuid, delta: int, reply: Reply<Location>)
    requires CapacityLogged(db)
    ensures var o := Charge(db, x, l, delta, reply);
            o.Ok? ==> CapacityLogged(o.value) && CapsOnly(db.outbox, o.value.outbox)
  {
    hide Times, Settle, Admit;
    var o := Charge(db, x, l, delta, reply);
    if o.Ok? {
      Appended(db.outbox, o.value.outbox[|db.outbox|]);
      NumberedAppended(db.outbox, o.value.outbox[|db.outbox|]);
      assert o.value.outbox == db.outbox + [o.value.outbox[|db.outbox|]];
    }
  }

  lemma EmitLogged(db: Db, e: Event)
    requires CapacityLogged(db) && !e.LocationCapacityChanged?
    ensures CapacityLogged(Emit(db, e))
  {
    Appended(db.outbox, e);
    NumberedAppended(db.outbox, e);
  }

  // ----- transactions about one lot -----

  lemma ReservedSame(lots: map<Uuid, Lot>, id: Uuid, y: Lot)
    requires if id in lots then
               y.warehouse == lots[id].warehouse && y.product == lots[id].product && y.reserved == lots[id].reserved
             else y.reserved == 0
    ensures forall w, p :: Total(lots[id := y], ReservedFor(w, p)).units == Total(lots, ReservedFor(w, p)).units
  {
    hide Total;
    forall w, p
      ensures Total(lots[id := y], ReservedFor(w, p)).units == Total(lots, ReservedFor(w, p)).units
    {
      TotalUpdate(lots, id, y, ReservedFor(w, p));
    }
  }

  /** A change of one lot whose reserved units stay, announced by `e`. */
  lemma OneLotLogged(db: Db, charged: Db, id: Uuid, y: Lot, e: Event)
    requires LogOk(db) && CapacityLogged(charged) && CapsOnly(db.outbox, charged.outbox)
    requires if id in db.lots then
               y.warehouse == db.lots[id].warehouse && y.product == db.lots[id].product
                   && y.reserved == db.lots[id].reserved
             else y.reserved == 0
    requires Snapshot(db.lots[id := y]) == Observe(Snapshot(db.lots), e)
    requires !e.LocationCapacityChanged? && forall w, p :: Delta(e, w, p) == 0
    ensures LogOk(Emit(charged.(lots := db.lots[id := y]), e))
  {
    hide Total;
    ReservedSame(db.lots, id, y);
    Announced(db, charged.outbox, e, Emit(charged.(lots := db.lots[id := y]), e));
    EmitLogged(charged.(lots := db.lots[id := y]), e);
  }

  ghost predicate KeepsLog(o: Outcome<Db>) {
    o.Ok? ==> LogOk(o.value)
  }

  lemma ReceiveLogs(db: Db, now: Time, q: Receipt, product: Reply<Product>, active: Reply<bool>, newId: Uuid)
    requires LogOk(db)
    ensures KeepsLog(Receive(db, now, q, product, active, newId))
  {
    var o := Receive(db, now, q, product, active, newId);
    hide LotsLogged, ReservedLogged, CapacityLogged;
    if o.Ok? {
      var x := o.value.lots[newId];
      var e := GoodsReceived(newId, x.product, x.warehouse, x.quantity, x.unit, x.storage);
      assert Snapshot(db.lots[newId := x]) == Observe(Snapshot(db.lots), e);
      OneLotLogged(db, db, newId, x, e);
    }
  }

  lemma AdjustLogs(db: Db, q: Change, reply: Reply<Location>)
    requires LogOk(db) && q.stock in db.lots
    ensures KeepsLog(AdjustLot(db, q, reply))
  {
    hide Charge, LotsLogged, ReservedLogged, CapacityLogged;
    var o := AdjustLot(db, q, reply);
    if o.Ok? {
      var x := db.lots[q.stock];
      var y := x.(quantity := q.quantity);
      var delta := q.quantity - x.quantity;
      var e := StockAdjusted(q.stock, x.product, x.warehouse, q.quantity, delta, q.reason);
      assert Snapshot(db.lots[q.stock := y]) == Observe(Snapshot(db.lots), e);
      if x.location.Some? && delta != 0 {
        ChargeFrame(db, x, x.location.value, delta, reply);
        ChargeLogged(db, x, x.location.value, delta, reply);
        OneLotLogged(db, Charge(db, x, x.location.value, delta, reply).value, q.stock, y, e);
      } else {
        OneLotLogged(db, db, q.stock, y, e);
      }
    }
  }

  lemma WriteOffLogs(db: Db, q: Change)
    requires LogOk(db) && q.stock in db.lots
    ensures KeepsLog(WriteOffLot(db, q))
  {
    hide Charge, LotsLogged, ReservedLogged, CapacityLogged;
    var o := WriteOffLot(db, q);
    if o.Ok? {
      var x := db.lots[q.stock];
      var y := x.(quantity := x.quantity - q.quantity);
      var e := StockWrittenOff(q.stock, x.product, x.warehouse, q.quantity, q.reason);
      assert Snapshot(db.lots[q.stock := y]) == Observe(Snapshot(db.lots), e);
      if x.location.Some? {
        ChargeFrame(db, x, x.location.value, -q.quantity, NoAnswer);
        ChargeLogged(db, x, x.location.value, -q.quantity, NoAnswer);
        OneLotLogged(db, Charge(db, x, x.location.value, -q.quantity, NoAnswer).value, q.stock, y, e);
      } else {
        OneLotLogged(db, db, q.stock, y, e);
      }
    }
  }

  lemma PlaceLogs(db: Db, stock: Uuid, warehouse: Uuid, location: Uuid, reply: Reply<Location>)
    requires LogOk(db)
    ensures KeepsLog(Place(db, stock, warehouse, location, reply))
  {
    hide Charge, LotsLogged, ReservedLogged, CapacityLogged;
    var o := Place(db, stock, warehouse, location, reply);
    if o.Ok? && o.value != db {
      var x := db.lots[stock];
      var y := x.(location := Some(location));
      var e := StockAdded(stock, x.product, x.warehouse, location, x.quantity);
      assert Snapshot(db.lots[stock := y]) == Observe(Snapshot(db.lots), e);
      ChargeFrame(db, x, location, x.quantity, reply);
      ChargeLogged(db, x, location, x.quantity, reply);
      OneLotLogged(db, Charge(db, x, location, x.quantity, reply).value, stock, y, e);
    }
  }

  /** A withdrawal announces at most capacity events of its own. */
  lemma WithdrawLogged(db: Db, id: Uuid, x: Lot, n: int)
    requires CapacityLogged(db)
    ensures var o := Withdraw(db, id, x, n);
            o.Ok? ==>
              && CapacityLogged(o.value) && CapsOnly(db.outbox, o.value.outbox)
              && o.value.lots == db.lots[id := x.(quantity := x.quantity - n)]
  {
    hide Charge, CapacityLogged;
    if x.location.Some? {
      ChargeFrame(db, x, x.location.value, -n, NoAnswer);
      ChargeLogged(db, x, x.location.value, -n, NoAnswer);
      var charged := Charge(db, x, x.location.value, -n, NoAnswer);
      var o := Withdraw(db, id, x, n);
      if o.Ok? {
        CapacityOnly(charged.value, o.value);
      }
    } else {
      var o := Withdraw(db, id, x, n);
      if o.Ok? {
        CapacityOnly(db, o.value);
      }
    }
  }

  /** The capacity part of the log is about ledger and outbox alone. */
  lemma CapacityOnly(db: Db, after: Db)
    requires CapacityLogged(db) && after.ledger == db.ledger && after.outbox == db.outbox
    ensures CapacityLogged(after)
  {
  }

  lemma MoveLogs(db: Db, now: Time, q: Change, reply: Reply<Location>, newId: Uuid)
    requires LogOk(db) && q.stock in db.lots
    ensures KeepsLog(MoveLot(db, now, q, reply, newId))
  {
    hide Charge, Withdraw, LotsLogged, ReservedLogged, CapacityLogged, Total;
    var o := MoveLot(db, now, q, reply, newId);
    if o.Ok? {
      var x := db.lots[q.stock];
      var y := x.(quantity := x.quantity - q.quantity);
      var copy := x.(location := Some(q.to), quantity := q.quantity, reserved := 0, created := now);
      var e := StockMoved(q.stock, newId, x.product, x.warehouse, q.quantity, x.location, q.to);
      ChargeFrame(db, x, q.to, q.quantity, reply);
      ChargeLogged(db, x, q.to, q.quantity, reply);
      var charged := Charge(db, x, q.to, q.quantity, reply).value;
      var inserted := charged.(lots := db.lots[newId := copy]);
      CapacityOnly(charged, inserted);
      WithdrawLogged(inserted, q.stock, x, q.quantity);
      var drawn := Withdraw(inserted, q.stock, x, q.quantity).value;
      assert o.value == Emit(drawn, e);
      EmitLogged(drawn, e);
      ReservedSame(db.lots, newId, copy);
      ReservedSame(db.lots[newId := copy], q.stock, y);
      assert Snapshot(drawn.lots) == Observe(Snapshot(db.lots), e);
      Announced(db, drawn.outbox, e, o.value);
    }
  }

  // ----- transactions about a reservation -----

  lemma {:induction false} ItemUnitsOf(lots: map<Uuid, Lot>, rows: seq<Alloc>, product: Uuid)
    ensures ItemUnits(ItemsOf(lots, rows), product) == ProductUnits(lots, rows, product)
  {
    if rows != [] {
      ItemUnitsOf(lots, rows[1..], product);
      var items := ItemsOf(lots, rows);
      if rows[0].stock in lots {
        assert items[1..] == ItemsOf(lots, rows[1..]);
      } else {
        assert items == ItemsOf(lots, rows[1..]);
      }
    }
  }

  /** Rows on lots of one warehouse. */
  ghost predicate AtHome(lots: map<Uuid, Lot>, rows: seq<Alloc>, warehouse: Uuid) {
    forall a | a in rows :: a.stock in lots && lots[a.stock].warehouse == warehouse
  }

  /** Deducting rows takes their product units out of the reserved units of the warehouse. */
  lemma {:induction false} ReservedAfterDeducting(lots: map<Uuid, Lot>, rows: seq<Alloc>, home: Uuid, w: Uuid, p: Uuid)
    requires AtHome(lots, rows, home)
    ensures Total(Deducting(lots, rows), ReservedFor(w, p)).units
         == Total(lots, ReservedFor(w, p)).units - if w == home then ProductUnits(lots, rows, p) else 0
    decreases |rows|
  {
    hide Total;
    if rows == [] {
      assert Deducting(lots, rows) == lots;
    } else {
      assert rows[0] in rows;
      var lots1 := Shipped1(lots, rows[0]);
      forall a | a in rows[1..] ensures a.stock in lots1 && lots1[a.stock].warehouse == home { assert a in rows; }
      ReservedAfterDeducting(lots1, rows[1..], home, w, p);
      DeductingRest(lots, rows);
      TotalUpdate(lots, rows[0].stock, lots1[rows[0].stock], ReservedFor(w, p));
      SameProducts(lots, lots1, rows[1..], p);
    }
  }

  lemma {:induction false} SameProducts(lots: map<Uuid, Lot>, after: map<Uuid, Lot>, rows: seq<Alloc>, p: Uuid)
    requires lots.Keys == after.Keys && forall id | id in lots :: after[id].product == lots[id].product
    ensures ProductUnits(after, rows, p) == ProductUnits(lots, rows, p)
  {
    if rows != [] {
      SameProducts(lots, after, rows[1..], p);
    }
  }

  lemma ReservedAfterReleasing(lots: map<Uuid, Lot>, rows: seq<Alloc>, home: Uuid, w: Uuid, p: Uuid)
    requires AtHome(lots, rows, home)
    ensures Total(Releasing(lots, rows), ReservedFor(w, p)).units
         == Total(lots, ReservedFor(w, p)).units - if w == home then ProductUnits(lots, rows, p) else 0
  {
    hide Total;
    ReservedAfterDeducting(lots, rows, home, w, p);
    TotalPointwise(Releasing(lots, rows), Deducting(lots, rows), ReservedFor(w, p));
  }

  /** Reserving rows is the inverse of giving them back. */
  lemma ReservedAfterReserving(lots: map<Uuid, Lot>, rows: seq<Alloc>, home: Uuid, w: Uuid, p: Uuid)
    requires AtHome(lots, rows, home)
    ensures Total(Reserving(lots, rows), ReservedFor(w, p)).units
         == Total(lots, ReservedFor(w, p)).units + if w == home then ProductUnits(lots, rows, p) else 0
  {
    hide Total;
    var more := Reserving(lots, rows);
    ReservedAfterReleasing(more, rows, home, w, p);
    assert Releasing(more, rows) == lots;
    SameProducts(lots, more, rows, p);
  }

  lemma {:induction false} PicksAtHome(db: Db, r: Uuid, warehouse: Uuid, today: int, lines: seq<Line>)
    requires forall line | line in lines :: line.quantity > 0
    ensures AtHome(db.lots, Picks(db, r, warehouse, today, lines), warehouse)
  {
    if lines != [] {
      assert lines[0] in lines;
      GreedyAtHome(db, r, warehouse, today, lines[0]);
      forall line | line in lines[1..] ensures line in lines {}
      PicksAtHome(db, r, warehouse, today, lines[1..]);
    }
  }

  lemma GreedyAtHome(db: Db, r: Uuid, warehouse: Uuid, today: int, line: Line)
    requires line.quantity > 0
    ensures AtHome(db.lots, Fefo.Greedy(r, LineOffers(db, warehouse, today, line), line.quantity), warehouse)
  {
    var m := EligibleLots(db, warehouse, line.product, today);
    Fefo.OffersList(m);
    Fefo.GreedyFollows(r, Offers(m), line.quantity);
  }

  lemma RowsAtHome(db: Db, r: Uuid)
    requires StockOk(db) && r in db.bookings
    ensures AtHome(db.lots, RowsOf(db.allocs, r), db.bookings[r].warehouse)
  {
    RowsOfMembers(db.allocs, r);
    forall a | a in RowsOf(db.allocs, r)
      ensures a.stock in db.lots && db.lots[a.stock].warehouse == db.bookings[r].warehouse
    {
      assert AllocOk(db, a);
    }
  }

  /** A change of many lots, announced by one event after the charges it needed. */
  lemma BatchLogged(db: Db, charged: Db, e: Event, after: Db)
    requires LogOk(db) && CapacityLogged(charged) && CapsOnly(db.outbox, charged.outbox)
    requires after.ledger == charged.ledger && after.outbox == charged.outbox + [e] && !e.LocationCapacityChanged?
    requires Snapshot(after.lots) == Observe(Snapshot(db.lots), e)
    requires forall w, p ::
              Total(after.lots, ReservedFor(w, p)).units == Total(db.lots, ReservedFor(w, p)).units + Delta(e, w, p)
    ensures LogOk(after)
  {
    hide LotsLogged, ReservedLogged, CapacityLogged, Total, Snapshot, Observe, Delta;
    EmitLogged(charged, e);
    CapacityOnly(Emit(charged, e), after);
    Announced(db, charged.outbox, e, after);
  }

  lemma ReserveTotals(db: Db, r: Uuid, warehouse: Uuid, today: int, lines: seq<Line>, expires: Time)
    requires WellFormed(lines, {}) && Coverable(db, warehouse, today, lines)
    ensures var picks := Picks(db, r, warehouse, today, lines);
            forall w, p :: Total(Reserving(db.lots, picks), ReservedFor(w, p)).units
                        == Total(db.lots, ReservedFor(w, p)).units
                            + Delta(StockReserved(r, warehouse, lines, expires), w, p)
  {
    var picks := Picks(db, r, warehouse, today, lines);
    WellFormedProducts(lines, {});
    PicksAtHome(db, r, warehouse, today, lines);
    hide Total, Picks, Reserving, ReservedFor;
    forall w, p
      ensures Total(Reserving(db.lots, picks), ReservedFor(w, p)).units
           == Total(db.lots, ReservedFor(w, p)).units + Delta(StockReserved(r, warehouse, lines, expires), w, p)
    {
      ReservedAfterReserving(db.lots, picks, warehouse, w, p);
      PicksCoverLines(db, r, warehouse, today, lines, {}, p);
    }
  }

  /** Giving rows back and shipping them change the reserved totals by the announced items. */
  lemma ClosingTotals(lots: map<Uuid, Lot>, rows: seq<Alloc>, home: Uuid, e: Event)
    requires AtHome(lots, rows, home)
    requires e.StockReservationCancelled? || e.ReservationExpired? || e.StockShipped?
    requires e.warehouse == home && e.items == ItemsOf(lots, rows)
    ensures forall w, p :: Total(Releasing(lots, rows), ReservedFor(w, p)).units
                        == Total(lots, ReservedFor(w, p)).units + Delta(e, w, p)
    ensures forall w, p :: Total(Deducting(lots, rows), ReservedFor(w, p)).units
                        == Total(lots, ReservedFor(w, p)).units + Delta(e, w, p)
  {
    hide Total, ReservedFor, Releasing, Deducting, ItemsOf;
    forall w, p
      ensures Total(Releasing(lots, rows), ReservedFor(w, p)).units == Total(lots, ReservedFor(w, p)).units
                + Delta(e, w, p)
      ensures Total(Deducting(lots, rows), ReservedFor(w, p)).units == Total(lots, ReservedFor(w, p)).units
                + Delta(e, w, p)
    {
      ReservedAfterReleasing(lots, rows, home, w, p);
      ReservedAfterDeducting(lots, rows, home, w, p);
      ItemUnitsOf(lots, rows, p);
    }
  }

  lemma SnapshotsKept(lots: map<Uuid, Lot>, rows: seq<Alloc>)
    ensures Snapshot(Reserving(lots, rows)) == Snapshot(lots)
    ensures Snapshot(Releasing(lots, rows)) == Snapshot(lots)
  {
  }

  lemma ReserveLogs(db: Db, now: Time, r: Uuid, warehouse: Uuid, lines: seq<Line>, expires: Time)
    requires StockOk(db) && LogOk(db)
    ensures KeepsLog(Reserve(db, now, r, warehouse, lines, expires))
  {
    hide Reserve, StockOk, Picks, Total, LotsLogged, ReservedLogged, CapacityLogged, Reserving, Coverable, Snapshot;
    hide WellFormed, Delta, ReservedFor;
    var o := Reserve(db, now, r, warehouse, lines, expires);
    if r in db.bookings {
      assert o == Ok(db) by { Existing(db, now, r, warehouse, lines, expires); }
    } else if o.Ok? {
      ReserveIs(db, now, r, warehouse, lines, expires);
      ReserveTotals(db, r, warehouse, Today(now), lines, expires);
      SnapshotsKept(db.lots, Picks(db, r, warehouse, Today(now), lines));
      BatchLogged(db, db, StockReserved(r, warehouse, lines, expires), o.value);
    }
  }

  /** A request for a reservation that has its row already is ignored. */
  lemma Existing(db: Db, now: Time, r: Uuid, warehouse: Uuid, lines: seq<Line>, expires: Time)
    requires r in db.bookings
    ensures Reserve(db, now, r, warehouse, lines, expires) == Ok(db)
  {
  }

  lemma ReleaseLogs(db: Db, r: Uuid, expired: bool)
    requires StockOk(db) && LogOk(db)
    ensures KeepsLog(Release(db, r, expired))
  {
    if IsConfirmed(db.bookings, r) {
      ReleaseIs(db, r, expired);
      RowsAtHome(db, r);
      var rows := RowsOf(db.allocs, r);
      var items := ItemsOf(db.lots, rows);
      var home := db.bookings[r].warehouse;
      var e := if expired then ReservationExpired(r, home, items) else StockReservationCancelled(r, home, items);
      hide Release, StockOk, Total, LotsLogged, ReservedLogged, CapacityLogged, Releasing, RowsOf, ItemsOf, Snapshot;
      hide AtHome;
      ClosingTotals(db.lots, rows, home, e);
      SnapshotsKept(db.lots, rows);
      BatchLogged(db, db, e, Release(db, r, expired).value);
    }
  }

  lemma {:induction false} ShipRowsLogged(db: Db, now: Time, rows: seq<Alloc>)
    requires CapacityLogged(db) && Backed(db.lots, rows)
    ensures var o := ShipRows(db, now, rows);
            o.Ok? ==> CapacityLogged(o.value) && CapsOnly(db.outbox, o.value.outbox)
    decreases |rows|
  {
    hide ShipRow, Charge, Backed, CapacityLogged, Deducting;
    if rows != [] {
      BackedHead(db.lots, rows);
      ShipRowIs(db, now, rows[0]);
      var o := ShipRow(db, now, rows[0]);
      if o.Ok? {
        var x := db.lots[rows[0].stock];
        ChargeLogged(db, x, x.location.value, -rows[0].quantity, NoAnswer);
        CapacityOnly(Charge(db, x, x.location.value, -rows[0].quantity, NoAnswer).value, o.value);
        BackedStep(db.lots, rows);
        ShipRowsLogged(o.value, now, rows[1..]);
      }
    }
  }

  lemma LessOne(lots: map<Uuid, Lot>, a: Alloc)
    requires a.stock in lots
    ensures Less(Snapshot(lots), a.stock, a.quantity) == Snapshot(Shipped1(lots, a))
  {
  }

  /** Replaying the shipped items deducts exactly the rows. */
  lemma {:induction false} ItemsDeduct(lots: map<Uuid, Lot>, rows: seq<Alloc>)
    requires forall a | a in rows :: a.stock in lots
    ensures LessItems(Snapshot(lots), ItemsOf(lots, rows)) == Snapshot(Deducting(lots, rows))
    decreases |rows|
  {
    if rows == [] {
      assert Deducting(lots, rows) == lots;
    } else {
      assert rows[0] in rows;
      var lots1 := Shipped1(lots, rows[0]);
      forall a | a in rows[1..] ensures a.stock in lots1 { assert a in rows; }
      ItemsKept(lots, lots1, rows[1..]);
      assert ItemsOf(lots, rows)[1..] == ItemsOf(lots, rows[1..]);
      hide Deducting, Snapshot, Less, Shipped1;
      LessOne(lots, rows[0]);
      DeductingRest(lots, rows);
      ItemsDeduct(lots1, rows[1..]);
    }
  }

  lemma ShipLogs(db: Db, now: Time, r: Uuid, warehouse: Uuid, shipment: Uuid)
    requires StockOk(db) && LogOk(db)
    ensures KeepsLog(Ship(db, now, r, warehouse, shipment))
  {
    hide StockOk, Total, LotsLogged, ReservedLogged, CapacityLogged, ShipRows, RowsOf, Deducting, ItemsOf, Snapshot;
    hide Backed, AtHome;
    var o := Ship(db, now, r, warehouse, shipment);
    if o.Ok? && IsConfirmed(db.bookings, r) {
      var rows := RowsOf(db.allocs, r);
      var e := StockShipped(r, warehouse, shipment, ItemsOf(db.lots, rows));
      RowsAreBacked(db, r);
      RowsAtHome(db, r);
      RowsOfMembers(db.allocs, r);
      ItemsDeduct(db.lots, rows);
      ClosingTotals(db.lots, rows, warehouse, e);
      ShipRowsIs(db, now, rows);
      ShipRowsLogged(db, now, rows);
      BatchLogged(db, ShipRows(db, now, rows).value, e, o.value);
    }
  }
}
