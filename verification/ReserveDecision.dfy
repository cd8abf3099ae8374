/** A reservation request is confirmed exactly when every line can be covered;
    it then reserves exactly the requested units, soonest-expiring lots first,
    and otherwise leaves lots, allocations and ledger alone. */
module ReserveDecision {
  import opened Domain
  import opened Events
  import opened InventoryRules
  import opened Totals
  import opened Fefo
  import opened StockInvariant

  predicate WellFormed(lines: seq<Line>, seen: set<Uuid>) {
    lines == []
    || (lines[0].quantity > 0 && lines[0].product !in seen && WellFormed(lines[1..], seen + {lines[0].product}))
  }

  /** Placed, unexpired, unreserved units of a product. */
  ghost function FreeUnits(db: Db, warehouse: Uuid, product: Uuid, today: int): int {
    Total(EligibleLots(db, warehouse, product, today), Unreserved()).units
  }

  ghost predicate Coverable(db: Db, warehouse: Uuid, today: int, lines: seq<Line>) {
    forall line | line in lines :: line.quantity <= FreeUnits(db, warehouse, line.product, today)
  }

  function LineOffers(db: Db, warehouse: Uuid, today: int, line: Line): seq<Offer> {
    Offers(EligibleLots(db, warehouse, line.product, today))
  }

  /** The allocation rows of a confirmed request, read off the tables before it. */
  function Picks(db: Db, r: Uuid, warehouse: Uuid, today: int, lines: seq<Line>): seq<Alloc> {
    if lines == [] then []
    else
      Greedy(r, LineOffers(db, warehouse, today, lines[0]), lines[0].quantity)
      + Picks(db, r, warehouse, today, lines[1..])
  }

  /** Units of a product in a list of allocation rows. */
  function ProductUnits(lots: map<Uuid, Lot>, rows: seq<Alloc>, product: Uuid): int {
    if rows == [] then 0
    else
      (if rows[0].stock in lots && lots[rows[0].stock].product == product then rows[0].quantity else 0)
      + ProductUnits(lots, rows[1..], product)
  }

  function LineUnits(lines: seq<Line>, product: Uuid): int {
    if lines == [] then 0
    else (if lines[0].product == product then lines[0].quantity else 0) + LineUnits(lines[1..], product)
  }

  // ----- one line -----

  lemma OffersAreTakeable(db: Db, r: Uuid, today: int, line: Line)
    requires StockOk(db) && IsConfirmed(db.bookings, r)
    requires forall a | a in db.allocs && a.reservation == r ::
              a.stock in db.lots && db.lots[a.stock].product != line.product
    ensures Takeable(db, r, LineOffers(db, db.bookings[r].warehouse, today, line))
  {
    OffersList(EligibleLots(db, db.bookings[r].warehouse, line.product, today));
  }

  /** Rows that touch only lots of one product. */
  ghost predicate OfProduct(lots: map<Uuid, Lot>, rows: seq<Alloc>, r: Uuid, product: Uuid) {
    forall a | a in rows :: a.reservation == r && a.stock in lots && lots[a.stock].product == product
  }

  lemma GreedyOfProduct(db: Db, r: Uuid, warehouse: Uuid, today: int, line: Line)
    requires line.quantity > 0
    ensures OfProduct(db.lots, Greedy(r, LineOffers(db, warehouse, today, line), line.quantity), r, line.product)
    ensures AllFree(LineOffers(db, warehouse, today, line))
  {
    var m := EligibleLots(db, warehouse, line.product, today);
    OffersList(m);
    GreedyFollows(r, Offers(m), line.quantity);
  }

  lemma {:induction false} UnitsNone(rows: seq<Alloc>, stock: Uuid)
    requires forall a | a in rows :: a.stock != stock
    ensures UnitsOf(rows, stock) == 0
  {
    if rows != [] {
      assert rows[0] in rows;
      UnitsNone(rows[1..], stock);
    }
  }

  lemma OtherProductsKept(db: Db, rows: seq<Alloc>, r: Uuid, product: Uuid, warehouse: Uuid, today: int, line: Line)
    requires OfProduct(db.lots, rows, r, product) && line.product != product
    ensures LineOffers(Taken(db, rows), warehouse, today, line) == LineOffers(db, warehouse, today, line)
    ensures FreeUnits(Taken(db, rows), warehouse, line.product, today) == FreeUnits(db, warehouse, line.product, today)
  {
    forall id | id in db.lots && db.lots[id].product == line.product
      ensures Taken(db, rows).lots[id] == db.lots[id]
    {
      UnitsNone(rows, id);
    }
    assert EligibleLots(Taken(db, rows), warehouse, line.product, today)
        == EligibleLots(db, warehouse, line.product, today);
  }

  lemma {:induction false} LaterLinesKept(db: Db, rows: seq<Alloc>, r: Uuid, product: Uuid, warehouse: Uuid,
                                          today: int, lines: seq<Line>)
    requires OfProduct(db.lots, rows, r, product)
    requires forall line | line in lines :: line.product != product
    ensures Picks(Taken(db, rows), r, warehouse, today, lines) == Picks(db, r, warehouse, today, lines)
    ensures Coverable(Taken(db, rows), warehouse, today, lines) <==> Coverable(db, warehouse, today, lines)
  {
    forall line | line in lines
      ensures LineOffers(Taken(db, rows), warehouse, today, line) == LineOffers(db, warehouse, today, line)
      ensures FreeUnits(Taken(db, rows), warehouse, line.product, today)
                == FreeUnits(db, warehouse, line.product, today)
    {
      OtherProductsKept(db, rows, r, product, warehouse, today, line);
    }
    if lines != [] {
      assert lines[0] in lines;
      forall line | line in lines[1..] ensures line in lines {}
      LaterLinesKept(db, rows, r, product, warehouse, today, lines[1..]);
    }
  }

  lemma {:induction false} WellFormedProducts(lines: seq<Line>, seen: set<Uuid>)
    requires WellFormed(lines, seen)
    ensures forall line | line in lines :: line.product !in seen && line.quantity > 0
  {
    if lines != [] {
      WellFormedProducts(lines[1..], seen + {lines[0].product});
    }
  }

  // ----- the whole request -----

  ghost predicate FreshFor(db: Db, r: Uuid, seen: set<Uuid>) {
    forall a | a in db.allocs && a.reservation == r :: a.stock in db.lots && db.lots[a.stock].product in seen
  }

  ghost predicate LineCovered(db: Db, warehouse: Uuid, today: int, line: Line) {
    line.quantity <= FreeUnits(db, warehouse, line.product, today)
  }

  lemma LineIsCovered(db: Db, r: Uuid, warehouse: Uuid, today: int, line: Line)
    requires line.quantity > 0
    ensures AllFree(LineOffers(db, warehouse, today, line))
    ensures var rows := Greedy(r, LineOffers(db, warehouse, today, line), line.quantity);
            line.quantity - SumRows(rows) <= 0 <==> LineCovered(db, warehouse, today, line)
    ensures LineCovered(db, warehouse, today, line) ==>
              SumRows(Greedy(r, LineOffers(db, warehouse, today, line), line.quantity)) == line.quantity
  {
    GreedyOfProduct(db, r, warehouse, today, line);
    GreedyTotal(r, LineOffers(db, warehouse, today, line), line.quantity);
    OffersTotal(EligibleLots(db, warehouse, line.product, today));
  }

  /** The outer loop succeeds exactly on well-formed, coverable requests and reserves the picks. */
  lemma {:induction false} TakeLinesIs(db: Db, r: Uuid, warehouse: Uuid, today: int, lines: seq<Line>, seen: set<Uuid>)
    requires StockOk(db) && IsConfirmed(db.bookings, r) && db.bookings[r].warehouse == warehouse
    requires FreshFor(db, r, seen)
    ensures var o := TakeLines(db, r, warehouse, today, lines, seen);
            var after := Taken(db, Picks(db, r, warehouse, today, lines));
            && (o.Ok? <==> WellFormed(lines, seen) && Coverable(db, warehouse, today, lines))
            && (o.Ok? ==> o.value == after && StockOk(after))
            && (o.Err? ==> Business(o.error))
    decreases |lines|
  {
    if lines == [] {
      TakenNothing(db);
    } else if lines[0].quantity > 0 && lines[0].product !in seen {
      var line := lines[0];
      var offers := LineOffers(db, warehouse, today, line);
      var rows := Greedy(r, offers, line.quantity);
      OffersAreTakeable(db, r, today, line);
      TakeAllKeeps(db, r, offers, line.quantity);
      LineIsCovered(db, r, warehouse, today, line);
      assert lines[0] in lines;
      var db1 := Taken(db, rows);
      hide StockOk, FreshFor, Taken, OfProduct, Greedy, LineOffers, FreeUnits;
      if LineCovered(db, warehouse, today, line) {
        GreedyOfProduct(db, r, warehouse, today, line);
        TakeRest(db, rows, r, warehouse, today, lines, seen);
      }
    }
  }

  /** The remaining lines, after the rows of the first line have been taken. */
  lemma TakeRest(db: Db, rows: seq<Alloc>, r: Uuid, warehouse: Uuid, today: int, lines: seq<Line>, seen: set<Uuid>)
    requires lines != [] && LineCovered(db, warehouse, today, lines[0])
    requires lines[0].quantity > 0 && lines[0].product !in seen
    requires rows == Greedy(r, LineOffers(db, warehouse, today, lines[0]), lines[0].quantity)
    requires OfProduct(db.lots, rows, r, lines[0].product)
    requires StockOk(Taken(db, rows)) && IsConfirmed(db.bookings, r) && db.bookings[r].warehouse == warehouse
    requires FreshFor(Taken(db, rows), r, seen + {lines[0].product})
    ensures var o := TakeLines(Taken(db, rows), r, warehouse, today, lines[1..], seen + {lines[0].product});
            var after := Taken(db, Picks(db, r, warehouse, today, lines));
            && (o.Ok? <==> WellFormed(lines, seen) && Coverable(db, warehouse, today, lines))
            && (o.Ok? ==> o.value == after && StockOk(after))
            && (o.Err? ==> Business(o.error))
    decreases |lines|, 0
  {
    var product, rest := lines[0].product, lines[1..];
    var db1 := Taken(db, rows);
    assert IsConfirmed(db1.bookings, r) && db1.bookings[r].warehouse == warehouse;
    assert Picks(db, r, warehouse, today, lines) == rows + Picks(db, r, warehouse, today, rest);
    assert WellFormed(lines, seen) == WellFormed(rest, seen + {product});
    assert Coverable(db, warehouse, today, lines) <==> Coverable(db, warehouse, today, rest) by {
      assert lines == [lines[0]] + rest;
      hide FreeUnits;
    }
    hide StockOk, Taken, TakeLines, FreshFor, FreeUnits, Greedy, LineOffers, OfProduct, Picks, Coverable, WellFormed;
    TakeLinesIs(db1, r, warehouse, today, rest, seen + {product});
    if WellFormed(rest, seen + {product}) {
      WellFormedProducts(rest, seen + {product});
      LaterLinesKept(db, rows, r, product, warehouse, today, rest);
      TakenTwice(db, rows, Picks(db, r, warehouse, today, rest));
    }
  }

  // ----- the decision -----

  function Booked(db: Db, r: Uuid, warehouse: Uuid, expires: Time): Db {
    db.(bookings := db.bookings[r := Booking(warehouse, Confirmed, expires, None)])
  }

  /** A reservation row without allocations changes nothing for the lots. */
  lemma NewBookingKeeps(db: Db, r: Uuid, b: Booking)
    requires StockOk(db) && r !in db.bookings
    ensures StockOk(db.(bookings := db.bookings[r := b])) && FreshFor(db.(bookings := db.bookings[r := b]), r, {})
  {
    var after := db.(bookings := db.bookings[r := b]);
    forall a | a in db.allocs
      ensures a.reservation != r && AllocOk(after, a)
    {
      assert AllocOk(db, a);
    }
    forall id | id in db.lots
      ensures LotOk(after, id)
    {
      assert LotOk(db, id);
      HeldUnaffected(db.allocs, db.bookings, r, b, id);
    }
  }

  lemma PicksOfBooked(db: Db, r: Uuid, warehouse: Uuid, expires: Time, today: int, lines: seq<Line>)
    ensures Picks(Booked(db, r, warehouse, expires), r, warehouse, today, lines)
              == Picks(db, r, warehouse, today, lines)
    ensures Coverable(Booked(db, r, warehouse, expires), warehouse, today, lines)
              == Coverable(db, warehouse, today, lines)
  {
    assert forall product :: EligibleLots(Booked(db, r, warehouse, expires), warehouse, product, today)
                          == EligibleLots(db, warehouse, product, today);
    if lines != [] {
      PicksOfBooked(db, r, warehouse, expires, today, lines[1..]);
    }
  }

  /** What makes a fresh request acceptable. */
  ghost predicate Acceptable(db: Db, now: Time, warehouse: Uuid, lines: seq<Line>, expires: Time) {
    now < expires && lines != [] && WellFormed(lines, {}) && Coverable(db, warehouse, Today(now), lines)
  }

  /** The stock invariant says nothing about the outbox. */
  lemma EmitKeeps(db: Db, e: Event)
    requires StockOk(db)
    ensures StockOk(Emit(db, e))
  {
    forall id | id in db.lots ensures LotOk(Emit(db, e), id) { assert LotOk(db, id); }
    forall a | a in db.allocs ensures AllocOk(Emit(db, e), a) { assert AllocOk(db, a); }
  }

  lemma ReserveIs(db: Db, now: Time, r: Uuid, warehouse: Uuid, lines: seq<Line>, expires: Time)
    requires StockOk(db) && r !in db.bookings
    ensures var o := Reserve(db, now, r, warehouse, lines, expires);
            var after := Emit(Taken(Booked(db, r, warehouse, expires), Picks(db, r, warehouse, Today(now), lines)),
                              StockReserved(r, warehouse, lines, expires));
            && (o.Ok? <==> Acceptable(db, now, warehouse, lines, expires))
            && (o.Ok? ==> o.value == after && StockOk(after))
            && (o.Err? ==> Business(o.error))
  {
    if now < expires && lines != [] {
      var booked := Booked(db, r, warehouse, expires);
      NewBookingKeeps(db, r, Booking(warehouse, Confirmed, expires, None));
      TakeLinesIs(booked, r, warehouse, Today(now), lines, {});
      PicksOfBooked(db, r, warehouse, expires, Today(now), lines);
      var picked := Taken(booked, Picks(db, r, warehouse, Today(now), lines));
      hide StockOk, TakeLines, Picks, Taken, Coverable;
      if Acceptable(db, now, warehouse, lines, expires) {
        EmitKeeps(picked, StockReserved(r, warehouse, lines, expires));
      }
    }
  }

  /** A fresh request is confirmed exactly when it is acceptable; otherwise the only
      traces are one rejected row and one rejection event. */
  lemma ReserveDecides(db: Db, now: Time, r: Uuid, warehouse: Uuid, lines: seq<Line>, expires: Time,
                       reply: Reply<Location>)
    requires StockOk(db) && r !in db.bookings
    ensures var o := Handle(db, now, ReservationRequested(r, warehouse, lines, expires), reply);
            var picks := Picks(db, r, warehouse, Today(now), lines);
            && o.Ok?
            && StockOk(o.value)
            && (if Acceptable(db, now, warehouse, lines, expires) then
                  && o.value == Db(Reserving(db.lots, picks),
                                   db.allocs + picks,
                                   db.bookings[r := Booking(warehouse, Confirmed, expires, None)],
                                   db.ledger,
                                   db.outbox + [StockReserved(r, warehouse, lines, expires)])
                  && forall product :: ProductUnits(db.lots, picks, product) == LineUnits(lines, product)
                else
                  && o.value.lots == db.lots && o.value.allocs == db.allocs && o.value.ledger == db.ledger
                  && o.value.bookings == db.bookings[r := Booking(warehouse, Rejected, now, None)]
                  && exists code ::
                      o.value.outbox == db.outbox + [ReservationRejected(r, warehouse, lines, expires, code)])
  {
    var e := ReservationRequested(r, warehouse, lines, expires);
    ReserveIs(db, now, r, warehouse, lines, expires);
    if Acceptable(db, now, warehouse, lines, expires) {
      forall product {
        PicksCoverLines(db, r, warehouse, Today(now), lines, {}, product);
      }
    } else {
      var code := Reserve(db, now, r, warehouse, lines, expires).error.code;
      assert Handle(db, now, e, reply) == Ok(Refuse(db, now, e, code));
      NewBookingKeeps(db, r, Booking(warehouse, Rejected, now, None));
    }
  }

  lemma {:induction false} ProductUnitsAppend(lots: map<Uuid, Lot>, a: seq<Alloc>, b: seq<Alloc>, product: Uuid)
    ensures ProductUnits(lots, a + b, product) == ProductUnits(lots, a, product) + ProductUnits(lots, b, product)
  {
    if a == [] {
      assert a + b == b;
    } else {
      ProductUnitsAppend(lots, a[1..], b, product);
      assert (a + b)[1..] == a[1..] + b;
    }
  }

  lemma {:induction false} ProductUnitsOf(lots: map<Uuid, Lot>, rows: seq<Alloc>, r: Uuid, owner: Uuid, product: Uuid)
    requires OfProduct(lots, rows, r, owner)
    ensures ProductUnits(lots, rows, product) == if product == owner then SumRows(rows) else 0
  {
    if rows != [] {
      assert rows[0] in rows;
      ProductUnitsOf(lots, rows[1..], r, owner, product);
    }
  }

  /** The picks of an acceptable request sum to each line exactly. */
  lemma {:induction false} PicksCoverLines(db: Db, r: Uuid, warehouse: Uuid, today: int, lines: seq<Line>,
                                           seen: set<Uuid>, product: Uuid)
    requires WellFormed(lines, seen) && Coverable(db, warehouse, today, lines)
    ensures ProductUnits(db.lots, Picks(db, r, warehouse, today, lines), product) == LineUnits(lines, product)
    decreases |lines|
  {
    if lines != [] {
      var line := lines[0];
      assert line in lines;
      var rows := Greedy(r, LineOffers(db, warehouse, today, line), line.quantity);
      GreedyOfProduct(db, r, warehouse, today, line);
      LineIsCovered(db, r, warehouse, today, line);
      ProductUnitsOf(db.lots, rows, r, line.product, product);
      PicksCoverLines(db, r, warehouse, today, lines[1..], seen + {line.product}, product);
      ProductUnitsAppend(db.lots, rows, Picks(db, r, warehouse, today, lines[1..]), product);
    }
  }

  // ----- first expired, first out, on the tables -----

  lemma {:induction false} GreedyGain(r: Uuid, offers: seq<Offer>, q: int, i: nat)
    requires AllFree(offers) && 0 <= q && i < |offers|
    requires forall i, j | 0 <= i < j < |offers| :: offers[i].stock != offers[j].stock
    ensures var rows := Greedy(r, offers, q);
            UnitsOf(rows, offers[i].stock) == if i < |rows| then rows[i].quantity else 0
    decreases |offers|
  {
    var rows := Greedy(r, offers, q);
    if q > 0 {
      var n := Min(q, offers[0].free);
      if i == 0 {
        GreedyFollows(r, offers[1..], q - n);
        UnitsNone(rows[1..], offers[0].stock);
      } else {
        GreedyGain(r, offers[1..], q - n, i - 1);
      }
    }
  }

  lemma {:induction false} PicksGain(db: Db, r: Uuid, warehouse: Uuid, today: int, lines: seq<Line>, seen: set<Uuid>,
                                     line: Line, stock: Uuid)
    requires WellFormed(lines, seen) && line in lines && stock in db.lots && db.lots[stock].product == line.product
    ensures UnitsOf(Picks(db, r, warehouse, today, lines), stock)
         == UnitsOf(Greedy(r, LineOffers(db, warehouse, today, line), line.quantity), stock)
    decreases |lines|
  {
    WellFormedProducts(lines[1..], seen + {lines[0].product});
    var rows := Greedy(r, LineOffers(db, warehouse, today, lines[0]), lines[0].quantity);
    var rest := Picks(db, r, warehouse, today, lines[1..]);
    UnitsAppend(rows, rest, stock);
    GreedyOfProduct(db, r, warehouse, today, lines[0]);
    if line in lines[1..] {
      PicksGain(db, r, warehouse, today, lines[1..], seen + {lines[0].product}, line, stock);
      UnitsNone(rows, stock);
    } else {
      NoPicks(db, r, warehouse, today, lines[1..], line.product, stock);
    }
  }

  lemma {:induction false} NoPicks(db: Db, r: Uuid, warehouse: Uuid, today: int, lines: seq<Line>, product: Uuid,
                                   stock: Uuid)
    requires forall line | line in lines :: line.product != product && line.quantity > 0
    requires stock in db.lots && db.lots[stock].product == product
    ensures UnitsOf(Picks(db, r, warehouse, today, lines), stock) == 0
  {
    if lines != [] {
      assert lines[0] in lines;
      var rows := Greedy(r, LineOffers(db, warehouse, today, lines[0]), lines[0].quantity);
      GreedyOfProduct(db, r, warehouse, today, lines[0]);
      UnitsNone(rows, stock);
      NoPicks(db, r, warehouse, today, lines[1..], product, stock);
      UnitsAppend(rows, Picks(db, r, warehouse, today, lines[1..]), stock);
    }
  }

  /** Units newly reserved on the first `k` lots of an order of lots. */
  function Gain(before: map<Uuid, Lot>, after: map<Uuid, Lot>, offers: seq<Offer>, k: nat): int
    requires k <= |offers|
    requires forall o | o in offers :: o.stock in before && o.stock in after
  {
    if k == 0 then 0
    else
      Gain(before, after, offers, k - 1)
      + after[offers[k - 1].stock].reserved - before[offers[k - 1].stock].reserved
  }

  ghost predicate ConfirmedLine(db: Db, warehouse: Uuid, today: int, lines: seq<Line>, line: Line) {
    WellFormed(lines, {}) && Coverable(db, warehouse, today, lines) && line in lines
  }

  /** What one lot of the order gains. */
  lemma GainAt(db: Db, r: Uuid, warehouse: Uuid, today: int, lines: seq<Line>, line: Line, i: nat)
    requires ConfirmedLine(db, warehouse, today, lines, line) && i < |LineOffers(db, warehouse, today, line)|
    ensures var offers, rows := LineOffers(db, warehouse, today, line),
              Greedy(r, LineOffers(db, warehouse, today, line), line.quantity);
            && Lists(offers, EligibleLots(db, warehouse, line.product, today))
            && Reserving(db.lots, Picks(db, r, warehouse, today, lines))[offers[i].stock].reserved
            == db.lots[offers[i].stock].reserved + if i < |rows| then rows[i].quantity else 0
  {
    var offers := LineOffers(db, warehouse, today, line);
    WellFormedProducts(lines, {});
    GreedyOfProduct(db, r, warehouse, today, line);
    OffersList(EligibleLots(db, warehouse, line.product, today));
    hide Greedy, Picks, UnitsOf, WellFormed, Coverable, Offers;
    PicksGain(db, r, warehouse, today, lines, {}, line, offers[i].stock);
    GreedyGain(r, offers, line.quantity, i);
  }

  lemma {:induction false} GainIs(db: Db, r: Uuid, warehouse: Uuid, today: int, lines: seq<Line>, line: Line, k: nat)
    requires ConfirmedLine(db, warehouse, today, lines, line) && k <= |LineOffers(db, warehouse, today, line)|
    requires Lists(LineOffers(db, warehouse, today, line), EligibleLots(db, warehouse, line.product, today))
    ensures var offers, rows := LineOffers(db, warehouse, today, line),
              Greedy(r, LineOffers(db, warehouse, today, line), line.quantity);
            Gain(db.lots, Reserving(db.lots, Picks(db, r, warehouse, today, lines)), offers, k)
            == SumRows(rows[..Min(k, |rows|)])
  {
    hide Greedy, Picks, WellFormed, Coverable, Offers, LineOffers, ConfirmedLine;
    var rows := Greedy(r, LineOffers(db, warehouse, today, line), line.quantity);
    if k > 0 {
      GainIs(db, r, warehouse, today, lines, line, k - 1);
      GainAt(db, r, warehouse, today, lines, line, k - 1);
      if k <= |rows| {
        SumRowsAppend(rows[..k - 1], rows[k - 1]);
        assert rows[..k] == rows[..k - 1] + [rows[k - 1]];
      }
    }
  }

  lemma {:induction false} SumRowsAppend(rows: seq<Alloc>, a: Alloc)
    ensures SumRows(rows + [a]) == SumRows(rows) + a.quantity
  {
    if rows != [] {
      SumRowsAppend(rows[1..], a);
      assert (rows + [a])[1..] == rows[1..] + [a];
    }
  }

  /** In the tables: for each line of a confirmed request, the first `k` eligible lots
      (soonest expiry first) gain at least what any other way to cover the line takes
      from them, and a lot gains only when every sooner lot is left fully reserved. */
  lemma ReserveIsFefo(db: Db, r: Uuid, warehouse: Uuid, today: int, lines: seq<Line>, line: Line, other: seq<int>,
                      k: nat)
    requires ConfirmedLine(db, warehouse, today, lines, line)
    requires Covers(other, LineOffers(db, warehouse, today, line), line.quantity) && k <= |other|
    ensures var offers := LineOffers(db, warehouse, today, line);
            var after := Reserving(db.lots, Picks(db, r, warehouse, today, lines));
            && Lists(offers, EligibleLots(db, warehouse, line.product, today))
            && SoonestFirst(offers, EligibleLots(db, warehouse, line.product, today))
            && Gain(db.lots, after, offers, k) >= Sum(other[..k])
            && Gain(db.lots, after, offers, |offers|) == line.quantity
            && forall i, j | 0 <= i < j < |offers| ::
                 after[offers[j].stock].reserved > db.lots[offers[j].stock].reserved ==>
                   after[offers[i].stock].reserved == after[offers[i].stock].quantity
  {
    var offers := LineOffers(db, warehouse, today, line);
    var rows := Greedy(r, offers, line.quantity);
    WellFormedProducts(lines, {});
    GreedyOfProduct(db, r, warehouse, today, line);
    OffersList(EligibleLots(db, warehouse, line.product, today));
    FefoDominates(r, offers, line.quantity, other, k);
    hide Greedy, Picks, WellFormed, Coverable, Offers, LineOffers, UnitsOf, SoonestFirst, ComesBefore, Reserving;
    GainIs(db, r, warehouse, today, lines, line, k);
    GainIs(db, r, warehouse, today, lines, line, |offers|);
    TakenInOrder(db, r, warehouse, today, lines, line);
    assert rows[..|rows|] == rows;
  }

  lemma TakenInOrder(db: Db, r: Uuid, warehouse: Uuid, today: int, lines: seq<Line>, line: Line)
    requires ConfirmedLine(db, warehouse, today, lines, line)
    ensures var offers := LineOffers(db, warehouse, today, line);
            var after := Reserving(db.lots, Picks(db, r, warehouse, today, lines));
            && Lists(offers, EligibleLots(db, warehouse, line.product, today))
            && forall i, j | 0 <= i < j < |offers| ::
                 after[offers[j].stock].reserved > db.lots[offers[j].stock].reserved ==>
                   after[offers[i].stock].reserved == after[offers[i].stock].quantity
  {
    var offers := LineOffers(db, warehouse, today, line);
    var after := Reserving(db.lots, Picks(db, r, warehouse, today, lines));
    WellFormedProducts(lines, {});
    GreedyOfProduct(db, r, warehouse, today, line);
    OffersList(EligibleLots(db, warehouse, line.product, today));
    GreedyFollows(r, offers, line.quantity);
    GreedyExhausts(r, offers, line.quantity);
    hide Greedy, Picks, WellFormed, Coverable, Offers, LineOffers, UnitsOf, SoonestFirst, ComesBefore;
    forall i, j | 0 <= i < j < |offers| && after[offers[j].stock].reserved > db.lots[offers[j].stock].reserved
      ensures after[offers[i].stock].reserved == after[offers[i].stock].quantity
    {
      GainAt(db, r, warehouse, today, lines, line, j);
      GainAt(db, r, warehouse, today, lines, line, i);
    }
  }
}
