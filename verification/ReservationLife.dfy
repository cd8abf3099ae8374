/** The life of a reservation in plain terms: what a request becomes, what a cancellation asks
    for and what each result of the inventory changes; and, over every run, that what is asked
    of the inventory is what a client has asked for. */
module ReservationLife {
  import opened Domain
  import opened Events
  import opened System
  import InventoryRules
  import R = ReservationRules
  import S = ShipmentRules
  import P = PlacementRules
  import W = OccupancyRules

  // ----- requests -----

  /** Lines with at least one unit each, of different products, and half an hour at most. */
  predicate IsValid(q: R.Input) {
    && |q.items| > 0
    && (forall i | 0 <= i < |q.items| :: 1 <= q.items[i].quantity)
    && (forall i, k | 0 <= i < k < |q.items| :: q.items[i].product != q.items[k].product)
    && (q.ttl.Some? ==> 1 <= q.ttl.value <= 1800)
  }

  predicate IsRequestOf(x: R.Reservation, e: Event, now: Time, q: R.Input, id: Uuid) {
    && x.warehouse == q.warehouse && x.items == q.items
    && x.expires == now + (if q.ttl.Some? then q.ttl.value else 1800)
    && x.life == R.Pending && x.reason.None?
    && e == ReservationRequested(id, q.warehouse, q.items, x.expires)
  }

  ghost predicate Creates(before: R.Store, now: Time, q: R.Input, id: Uuid, o: Outcome<R.Store>) {
    if !IsValid(q) then o == Err(Fault(ValidationError, 400))
    else if id in before.rows then o == Err(Broken(DuplicateKey))
    else
      && o.Ok? && id in o.value.rows && |o.value.outbox| == |before.outbox| + 1
      && o.value.rows == before.rows[id := o.value.rows[id]]
      && o.value.outbox[..|before.outbox|] == before.outbox
      && IsRequestOf(o.value.rows[id], o.value.outbox[|before.outbox|], now, q, id)
  }

  /** A valid request with a new id becomes a pending row and one event, and both say what
      the request says. */
  lemma CreateDecides(st: R.Store, now: Time, q: R.Input, id: Uuid)
    ensures Creates(st, now, q, id, R.Create(st, now, q, id))
  {
    if exists i | 0 <= i < |q.items| :: q.items[i].quantity < 1 {
      var i :| 0 <= i < |q.items| && q.items[i].quantity < 1;
      assert q.items[i] in q.items;
    }
  }

  // ----- cancellations -----

  ghost predicate CancelsTo(before: R.Store, id: Uuid, o: Outcome<R.Store>) {
    if id !in before.rows then o == Err(Fault(NotFound, 404))
    else
      var x := before.rows[id];
      match x.life
      case Known(Completed) => o == Err(Fault(InvalidState, 409))
      case Known(ExpiredStatus) => o == Err(Fault(InvalidState, 409))
      case Known(Rejected) => o == Err(Fault(InvalidState, 409))
      case Known(Cancelled) => o == Ok(before)
      case _ =>
        o == Ok(R.Store(before.rows[id := R.Reservation(x.warehouse, x.items, R.Cancelling, x.expires, x.reason)],
                        before.outbox + [ReservationCancellationRequested(id, x.warehouse, None)]))
  }

  lemma CancelDecides(st: R.Store, id: Uuid)
    ensures CancelsTo(st, id, R.Cancel(st, id))
  {
  }

  // ----- results -----

  /** The event gives the reservation the status, for the reason. */
  predicate Tells(e: Event, r: Uuid, status: Status, reason: Option<Code>) {
    || (e.StockReserved? && e.reservation == r && status == Confirmed && reason == None)
    || (e.ReservationRejected? && e.reservation == r && status == Rejected && reason == Some(e.reason))
    || (e.StockReservationCancelled? && e.reservation == r && status == Cancelled && reason == None)
    || (e.ReservationExpired? && e.reservation == r && status == ExpiredStatus && reason == None)
    || (e.StockShipped? && e.reservation == r && status == Completed && reason == None)
  }

  /** Nothing moves a finished reservation, and a confirmation does not undo a cancellation. */
  predicate Ignores(life: R.Life, status: Status) {
    || life in {R.Known(Completed), R.Known(Cancelled), R.Known(ExpiredStatus), R.Known(Rejected)}
    || (life == R.Cancelling && status == Confirmed)
  }

  ghost predicate LearnsFrom(before: R.Store, e: Event, o: Outcome<R.Store>) {
    && ((forall r, status, reason :: !Tells(e, r, status, reason)) ==> o == Ok(before))
    && forall r, status, reason | Tells(e, r, status, reason) ::
         if r !in before.rows then o == Err(Fault(NotFound, 404))
         else if Ignores(before.rows[r].life, status) then o == Ok(before)
         else
           var x := before.rows[r];
           o == Ok(R.Store(before.rows[r := R.Reservation(x.warehouse, x.items, R.Known(status), x.expires, reason)],
                           before.outbox))
  }

  lemma HandleDecides(st: R.Store, e: Event)
    ensures LearnsFrom(st, e, R.Handle(st, e))
  {
    if R.Read(e).Some? {
      var news := R.Read(e).value;
      assert Tells(e, news.reservation, news.status, news.reason);
      if news.reservation in st.rows && Ignores(st.rows[news.reservation].life, news.status) {
        assert st.rows[news.reservation := st.rows[news.reservation]] == st.rows;
      }
    }
  }

  // ----- every run -----

  /** Step `k` of the run booked the reservation the event asks for. */
  ghost predicate Booked(world: map<Uuid, Site>, now: Time, steps: seq<Step>, e: Event, k: nat) {
    && k < |steps| && e.ReservationRequested?
    && steps[k].Book? && steps[k].newId == e.reservation
    && steps[k].input.warehouse == e.warehouse && steps[k].input.items == e.lines
    && e.expires == System.Run(world, Empty(world, now), steps[..k]).now
                      + (if steps[k].input.ttl.Some? then steps[k].input.ttl.value else 1800)
  }

  /** Only bookings add requests. */
  lemma RequestsAdded(world: map<Uuid, Site>, s: Sys, a: Step, e: Event)
    requires e in Next(world, s, a).resv.outbox && e.ReservationRequested?
    ensures e in s.resv.outbox
            || (a.Book? && e.reservation == a.newId && e.warehouse == a.input.warehouse && e.lines == a.input.items
                && e.expires == s.now + (if a.input.ttl.Some? then a.input.ttl.value else 1800))
  {
    hide InventoryRules.Commit, Proper, InventoryRules.Handle, Recognised, S.Create, S.Transition, S.Handle;
    hide P.Handle, P.Assign, W.Handle, W.SetStatus, P.Due, Surveyed, IsValid;
    match a
    case Book(q, id) => CreateDecides(s.resv, s.now, q, id);
    case Cancel(r) => CancelDecides(s.resv, r);
    case Deliver(consumer, ref, _) =>
      if ref.index < |Log(s, ref.source)| { HandleSends(s.resv, Log(s, ref.source)[ref.index]); }
    case _ =>
  }

  lemma HandleSends(st: R.Store, e: Event)
    ensures R.Handle(st, e).Ok? ==> R.Handle(st, e).value.outbox == st.outbox
  {
  }

  /** In every run, every request to the inventory carries the warehouse, the lines and the
      expiry of a booking that a client made. */
  lemma {:induction false} RequestsAreBooked(world: map<Uuid, Site>, now: Time, steps: seq<Step>, e: Event)
    requires e in System.Run(world, Empty(world, now), steps).resv.outbox && e.ReservationRequested?
    ensures exists k: nat :: Booked(world, now, steps, e, k)
    decreases |steps|
  {
    if steps != [] {
      var n := |steps| - 1;
      var init := steps[..n];
      assert steps == init + [steps[n]];
      hide Next;
      RunOneMore(world, Empty(world, now), init, steps[n]);
      RequestsAdded(world, System.Run(world, Empty(world, now), init), steps[n], e);
      if e in System.Run(world, Empty(world, now), init).resv.outbox {
        RequestsAreBooked(world, now, init, e);
        var k: nat :| Booked(world, now, init, e, k);
        assert init[..k] == steps[..k];
        assert Booked(world, now, steps, e, k);
      } else {
        assert Booked(world, now, steps, e, n);
      }
    }
  }
}
