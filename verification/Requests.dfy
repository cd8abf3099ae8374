/** What a reservation request gets, read off the tables: which lots may serve a line and in
    which order of dates, when the request is granted, and why it is refused otherwise. */
module Requests {
  import opened Domain
  import opened Events
  import opened InventoryRules
  import opened Totals
  import opened Fefo
  import opened StockInvariant
  import opened ReserveDecision

  // ----- which lots serve a line -----

  /** The lot holds units that may be promised: it is placed, has unreserved units, and the
      day it expires on has not begun. */
  predicate Serves(x: Lot, w: Uuid, product: Uuid, now: Time) {
    && x.warehouse == w && x.product == product
    && x.location.Some? && x.reserved < x.quantity
    && (x.expiration.Some? ==> now < x.expiration.value * 86400)
  }

  lemma EligibleServes(x: Lot, w: Uuid, product: Uuid, now: Time)
    ensures Eligible(x, w, product, Today(now)) <==> Serves(x, w, product, now)
  {
    if x.expiration.Some? { DayBegins(now, x.expiration.value); }
    hide Today;
  }

  /** Exactly the lots that serve the product are offered, each once, with its unreserved units. */
  lemma OffersServe(db: Db, w: Uuid, now: Time, line: Line, id: Uuid)
    ensures var offers := LineOffers(db, w, Today(now), line);
            && ((exists i | 0 <= i < |offers| :: offers[i].stock == id) <==>
                  id in db.lots && Serves(db.lots[id], w, line.product, now))
            && forall i | 0 <= i < |offers| && offers[i].stock == id ::
                 id in db.lots && offers[i].free == db.lots[id].quantity - db.lots[id].reserved
  {
    var m := EligibleLots(db, w, line.product, Today(now));
    OffersList(m);
    if id in m { OffersComplete(m, id); }
    if id in db.lots { EligibleServes(db.lots[id], w, line.product, now); }
    hide Offers, Today;
  }

  // ----- in which order -----

  /** The offers of a line are in the order of dates. */
  lemma OffersInOrder(db: Db, w: Uuid, now: Time, line: Line, i: nat, j: nat)
    requires i < j < |LineOffers(db, w, Today(now), line)|
    ensures var a, b := LineOffers(db, w, Today(now), line)[i].stock, LineOffers(db, w, Today(now), line)[j].stock;
            a in db.lots && b in db.lots && ComesBefore(db.lots[a], a, db.lots[b], b)
  {
    var m := EligibleLots(db, w, line.product, Today(now));
    OffersList(m);
    var a, b := Offers(m)[i].stock, Offers(m)[j].stock;
    hide Offers, Today, ComesBefore;
  }

  /** Nothing comes before itself, and of two lots only one comes before the other. */
  lemma OneComesBefore(a: Lot, i: Uuid, b: Lot, j: Uuid)
    ensures !(ComesBefore(a, i, b, j) && ComesBefore(b, j, a, i))
  {
  }

  /** In the tables: a confirmed request takes units from a lot only when it leaves no
      unreserved unit in any lot that serves the line and comes before it. */
  lemma EarlierDatesFirst(db: Db, r: Uuid, w: Uuid, now: Time, lines: seq<Line>, line: Line, id: Uuid, earlier: Uuid)
    requires ConfirmedLine(db, w, Today(now), lines, line)
    requires id in db.lots && earlier in db.lots && ComesBefore(db.lots[earlier], earlier, db.lots[id], id)
    requires Serves(db.lots[id], w, line.product, now) && Serves(db.lots[earlier], w, line.product, now)
    ensures var after := Reserving(db.lots, Picks(db, r, w, Today(now), lines));
            after[id].reserved > db.lots[id].reserved ==> after[earlier].reserved == after[earlier].quantity
  {
    hide ComesBefore, Serves, Today, LineOffers, Picks, ConfirmedLine, Eligible;
    var i, j := Positions(db, w, now, line, id, earlier);
    TakenInOrder(db, r, w, Today(now), lines, line);
  }

  /** Where two lots stand among the offers. */
  lemma Positions(db: Db, w: Uuid, now: Time, line: Line, id: Uuid, earlier: Uuid) returns (i: nat, j: nat)
    requires id in db.lots && earlier in db.lots && ComesBefore(db.lots[earlier], earlier, db.lots[id], id)
    requires Serves(db.lots[id], w, line.product, now) && Serves(db.lots[earlier], w, line.product, now)
    ensures var offers := LineOffers(db, w, Today(now), line);
            i < j < |offers| && offers[i].stock == earlier && offers[j].stock == id
  {
    var offers := LineOffers(db, w, Today(now), line);
    OffersServe(db, w, now, line, id);
    OffersServe(db, w, now, line, earlier);
    i :| 0 <= i < |offers| && offers[i].stock == earlier;
    j :| 0 <= j < |offers| && offers[j].stock == id;
    OneComesBefore(db.lots[earlier], earlier, db.lots[id], id);
    hide ComesBefore, Serves, Today, LineOffers;
    if j < i { OffersInOrder(db, w, now, line, j, i); }
  }

  // ----- when a request is granted -----

  /** The unreserved units that serve a product, summed over the whole table. */
  ghost function Promised(db: Db, w: Uuid, product: Uuid, now: Time): int {
    Total(db.lots, x => Amount(NO_LOAD, if Serves(x, w, product, now) then x.quantity - x.reserved else 0)).units
  }

  lemma {:induction false} TotalOfPart(lots: map<Uuid, Lot>, part: map<Uuid, Lot>, f: Measure, g: Measure)
    requires forall id | id in part :: id in lots && part[id] == lots[id] && f(lots[id]) == g(lots[id])
    requires forall id | id in lots && id !in part :: g(lots[id]) == NOTHING
    ensures Total(part, f) == Total(lots, g)
    decreases |lots|
  {
    hide Total;
    if lots == map[] {
      assert part == map[];
      TotalOfNothing(f);
      TotalOfNothing(g);
    } else {
      var id :| id in lots;
      var rest := if id in part then part - {id} else part;
      TotalWithout(lots, id, g);
      if id in part { TotalWithout(part, id, f); }
      TotalOfPart(lots - {id}, rest, f, g);
      assert Add(NOTHING, Total(rest, f)) == Total(rest, f);
    }
  }

  lemma FreeIsPromised(db: Db, w: Uuid, product: Uuid, now: Time)
    ensures FreeUnits(db, w, product, Today(now)) == Promised(db, w, product, now)
  {
    var g := (x: Lot) => Amount(NO_LOAD, if Serves(x, w, product, now) then x.quantity - x.reserved else 0);
    forall id | id in db.lots
      ensures Eligible(db.lots[id], w, product, Today(now)) <==> Serves(db.lots[id], w, product, now)
    {
      EligibleServes(db.lots[id], w, product, now);
    }
    hide Today, Serves, Eligible, Total;
    TotalOfPart(db.lots, EligibleLots(db, w, product, Today(now)), Unreserved(), g);
  }

  /** A line that can be granted after the lines before it. */
  ghost predicate Good(db: Db, w: Uuid, now: Time, lines: seq<Line>, i: nat)
    requires i < |lines|
  {
    && lines[i].quantity > 0
    && (forall k | 0 <= k < i :: lines[k].product != lines[i].product)
    && lines[i].quantity <= Promised(db, w, lines[i].product, now)
  }

  /** The request has time left and lines, each for a product of its own and covered. */
  ghost predicate Grantable(db: Db, now: Time, w: Uuid, lines: seq<Line>, expires: Time) {
    now < expires && lines != [] && forall i: nat | i < |lines| :: Good(db, w, now, lines, i)
  }

  lemma {:induction false} WellFormedMeans(lines: seq<Line>, seen: set<Uuid>)
    ensures WellFormed(lines, seen) <==>
              && (forall i | 0 <= i < |lines| :: lines[i].quantity > 0 && lines[i].product !in seen)
              && (forall k, i | 0 <= k < i < |lines| :: lines[k].product != lines[i].product)
  {
    if lines != [] {
      WellFormedMeans(lines[1..], seen + {lines[0].product});
      if forall i | 0 <= i < |lines| :: lines[i].quantity > 0 && lines[i].product !in seen {
        forall i | 0 <= i < |lines[1..]| ensures lines[1..][i] == lines[i + 1] {}
      }
      if WellFormed(lines, seen) {
        forall i | 0 < i < |lines| ensures lines[i] == lines[1..][i - 1] {}
      }
    }
  }

  lemma AcceptableMeans(db: Db, now: Time, w: Uuid, lines: seq<Line>, expires: Time)
    ensures Acceptable(db, now, w, lines, expires) <==> Grantable(db, now, w, lines, expires)
  {
    WellFormedMeans(lines, {});
    forall product ensures FreeUnits(db, w, product, Today(now)) == Promised(db, w, product, now) {
      FreeIsPromised(db, w, product, now);
    }
    hide FreeUnits, Promised, WellFormed, Today;
    if Acceptable(db, now, w, lines, expires) {
      forall i: nat | i < |lines| ensures Good(db, w, now, lines, i) { assert lines[i] in lines; }
    }
    if Grantable(db, now, w, lines, expires) {
      forall i: nat | i < |lines| ensures lines[i].quantity > 0 { assert Good(db, w, now, lines, i); }
      forall k: nat, i: nat | k < i < |lines| ensures lines[k].product != lines[i].product {
        assert Good(db, w, now, lines, i);
      }
      forall line | line in lines
        ensures line.quantity <= FreeUnits(db, w, line.product, Today(now))
      {
        var i :| 0 <= i < |lines| && lines[i] == line;
        assert Good(db, w, now, lines, i);
      }
    }
  }

  // ----- why a request is refused -----

  /** The first line that cannot be granted, and the reason. */
  ghost predicate FirstBad(db: Db, w: Uuid, now: Time, lines: seq<Line>, i: nat, error: Error) {
    && i < |lines| && !Good(db, w, now, lines, i)
    && (forall k: nat | k < i :: Good(db, w, now, lines, k))
    && error == if lines[i].quantity <= 0 || exists k | 0 <= k < i :: lines[k].product == lines[i].product
                then Fault(ValidationError, 400) else Fault(InsufficientStock, 409)
  }

  /** The error of the loop over the lines, on the tables before it. */
  ghost function LoopError(db: Db, w: Uuid, today: int, lines: seq<Line>, seen: set<Uuid>): Option<Error> {
    if lines == [] then None
    else if lines[0].quantity <= 0 || lines[0].product in seen then Some(Fault(ValidationError, 400))
    else if lines[0].quantity > FreeUnits(db, w, lines[0].product, today) then Some(Fail(InsufficientStock))
    else LoopError(db, w, today, lines[1..], seen + {lines[0].product})
  }

  /** What one line takes does not decide about lines for other products. */
  lemma {:induction false} LoopErrorKept(db: Db, rows: seq<Alloc>, r: Uuid, product: Uuid, w: Uuid, today: int,
                                         lines: seq<Line>, seen: set<Uuid>)
    requires OfProduct(db.lots, rows, r, product) && product in seen
    ensures LoopError(Taken(db, rows), w, today, lines, seen) == LoopError(db, w, today, lines, seen)
    decreases |lines|
  {
    if lines != [] {
      if lines[0].product != product { OtherProductsKept(db, rows, r, product, w, today, lines[0]); }
      hide FreeUnits, Taken, OfProduct;
      LoopErrorKept(db, rows, r, product, w, today, lines[1..], seen + {lines[0].product});
    }
  }

  lemma {:induction false} TakeLinesFails(db: Db, r: Uuid, w: Uuid, today: int, lines: seq<Line>, seen: set<Uuid>)
    requires StockOk(db) && IsConfirmed(db.bookings, r) && db.bookings[r].warehouse == w && FreshFor(db, r, seen)
    ensures var o := TakeLines(db, r, w, today, lines, seen);
            match LoopError(db, w, today, lines, seen) { case None => o.Ok? case Some(e) => o == Err(e) }
    decreases |lines|
  {
    if lines != [] && lines[0].quantity > 0 && lines[0].product !in seen {
      var line := lines[0];
      var offers := LineOffers(db, w, today, line);
      var rows := Greedy(r, offers, line.quantity);
      OffersAreTakeable(db, r, today, line);
      TakeAllKeeps(db, r, offers, line.quantity);
      LineIsCovered(db, r, w, today, line);
      GreedyOfProduct(db, r, w, today, line);
      var db1 := Taken(db, rows);
      if LineCovered(db, w, today, line) {
        assert FreshFor(db1, r, seen + {line.product});
        assert IsConfirmed(db1.bookings, r) && db1.bookings[r].warehouse == w;
        hide StockOk, FreshFor, Taken, OfProduct, Greedy, LineOffers, FreeUnits, IsConfirmed;
        TakeLinesFails(db1, r, w, today, lines[1..], seen + {line.product});
        LoopErrorKept(db, rows, r, line.product, w, today, lines[1..], seen + {line.product});
      }
    }
  }

  lemma {:induction false} LoopErrorMeans(db: Db, w: Uuid, now: Time, lines: seq<Line>, n: nat, seen: set<Uuid>)
    requires n <= |lines| && forall p :: p in seen <==> exists k | 0 <= k < n :: lines[k].product == p
    requires forall k: nat | k < n :: Good(db, w, now, lines, k)
    ensures LoopError(db, w, Today(now), lines[n..], seen).None? ==>
              forall k: nat | k < |lines| :: Good(db, w, now, lines, k)
    ensures LoopError(db, w, Today(now), lines[n..], seen).Some? ==>
              exists i: nat :: FirstBad(db, w, now, lines, i, LoopError(db, w, Today(now), lines[n..], seen).value)
    decreases |lines| - n
  {
    if n < |lines| {
      var line := lines[n];
      assert lines[n..][0] == line && lines[n..][1..] == lines[n + 1..];
      FreeIsPromised(db, w, line.product, now);
      hide FreeUnits, Promised, Today;
      if Good(db, w, now, lines, n) {
        LoopErrorMeans(db, w, now, lines, n + 1, seen + {line.product});
        assert line.product !in seen;
        var rest := LoopError(db, w, Today(now), lines[n + 1..], seen + {line.product});
        assert LoopError(db, w, Today(now), lines[n..], seen) == rest;
        if rest.Some? {
          var i: nat :| FirstBad(db, w, now, lines, i, rest.value);
          assert FirstBad(db, w, now, lines, i, LoopError(db, w, Today(now), lines[n..], seen).value);
        }
      } else {
        var e := LoopError(db, w, Today(now), lines[n..], seen).value;
        assert FirstBad(db, w, now, lines, n, e);
      }
    }
  }

  /** Why a fresh request is refused: it is late, empty, or has a first bad line. */
  ghost predicate Reason(db: Db, now: Time, w: Uuid, lines: seq<Line>, expires: Time, code: Code) {
    if expires <= now then code == Expired
    else if lines == [] then code == ValidationError
    else exists i: nat, e :: FirstBad(db, w, now, lines, i, e) && e.code == code
  }

  lemma ReserveFails(db: Db, now: Time, r: Uuid, w: Uuid, lines: seq<Line>, expires: Time)
    requires StockOk(db) && r !in db.bookings && Reserve(db, now, r, w, lines, expires).Err?
    ensures Reserve(db, now, r, w, lines, expires).error.Fault?
    ensures Reason(db, now, w, lines, expires, Reserve(db, now, r, w, lines, expires).error.code)
  {
    if now < expires && lines != [] {
      var booked := Booked(db, r, w, expires);
      NewBookingKeeps(db, r, Booking(w, Confirmed, expires, None));
      TakeLinesFails(booked, r, w, Today(now), lines, {});
      LoopErrorMeans(booked, w, now, lines, 0, {});
      assert lines[0..] == lines;
      hide StockOk, TakeLines, LoopError, Today, FreshFor, Promised, FirstBad;
      var e := LoopError(booked, w, Today(now), lines, {}).value;
      var i: nat :| FirstBad(booked, w, now, lines, i, e);
      BookedSame(db, r, w, expires, now, lines, i, e);
    }
  }

  lemma BookedSame(db: Db, r: Uuid, w: Uuid, expires: Time, now: Time, lines: seq<Line>, i: nat, e: Error)
    requires FirstBad(Booked(db, r, w, expires), w, now, lines, i, e)
    ensures FirstBad(db, w, now, lines, i, e)
  {
    assert forall product :: Promised(Booked(db, r, w, expires), w, product, now) == Promised(db, w, product, now);
    assert forall k: nat | k < |lines| ::
        Good(Booked(db, r, w, expires), w, now, lines, k) == Good(db, w, now, lines, k);
    hide Promised;
  }

  /** A fresh request is confirmed, with its warehouse and its expiry, exactly when it can be
      granted; otherwise it is rejected, for the reason the tables give. */
  lemma RequestDecides(db: Db, now: Time, r: Uuid, w: Uuid, lines: seq<Line>, expires: Time, reply: Reply<Location>)
    requires StockOk(db) && r !in db.bookings
    ensures var o := Handle(db, now, ReservationRequested(r, w, lines, expires), reply);
            && o.Ok?
            && (if Grantable(db, now, w, lines, expires) then
                  && o.value.bookings == db.bookings[r := Booking(w, Confirmed, expires, None)]
                  && o.value.outbox == db.outbox + [StockReserved(r, w, lines, expires)]
                else
                  && o.value.lots == db.lots && o.value.allocs == db.allocs && o.value.ledger == db.ledger
                  && o.value.bookings == db.bookings[r := Booking(w, Rejected, now, None)]
                  && exists code ::
                       && o.value.outbox == db.outbox + [ReservationRejected(r, w, lines, expires, code)]
                       && Reason(db, now, w, lines, expires, code))
  {
    AcceptableMeans(db, now, w, lines, expires);
    ReserveDecides(db, now, r, w, lines, expires, reply);
    if !Grantable(db, now, w, lines, expires) {
      ReserveIs(db, now, r, w, lines, expires);
      ReserveFails(db, now, r, w, lines, expires);
      hide StockOk, Acceptable, Grantable, Reason, Reserve;
      var code := Reserve(db, now, r, w, lines, expires).error.code;
      assert Handle(db, now, ReservationRequested(r, w, lines, expires), reply)
          == Ok(Refuse(db, now, ReservationRequested(r, w, lines, expires), code));
    }
    hide StockOk, Acceptable, Grantable, Reason, Handle;
  }
}
