/** The reservation service as it works: rows and outbox updated in place. */
module ReservationService {
  import opened Domain
  import opened Events
  import ReservationLife
  import R = ReservationRules

  /** The method succeeded with the rows and events of the specification, or failed with
      its error and changed nothing. */
  ghost predicate Follows(spec: Outcome<R.Store>, before: R.Store, o: Outcome<()>, after: R.Store) {
    match spec
    case Ok(s) => o == Ok(()) && after == s
    case Err(e) => o == Err(e) && after == before
  }

  class Reservations {
    var rows: map<Uuid, R.Reservation>
    var outbox: seq<Event>

    function Store(): R.Store
      reads this
    {
      R.Store(rows, outbox)
    }

    constructor ()
      ensures Store() == R.Store(map[], [])
    {
      rows, outbox := map[], [];
    }

    /** Whether a product occurs twice, as the loop over the request finds out. */
    method HasDuplicate(items: seq<Line>) returns (found: bool)
      ensures found == R.Duplicate(items)
    {
      var products: set<Uuid> := {};
      for i := 0 to |items|
        invariant forall p :: p in products <==> exists k | 0 <= k < i :: items[k].product == p
        invariant forall j, k | 0 <= j < k < i :: items[j].product != items[k].product
      {
        if items[i].product in products {
          return true;
        }
        products := products + {items[i].product};
      }
      found := false;
    }

    method Create(now: Time, q: R.Input, newId: Uuid) returns (o: Outcome<()>)
      modifies this
      ensures Follows(R.Create(old(Store()), now, q, newId), old(Store()), o, Store())
      ensures ReservationLife.Creates(old(Store()), now, q, newId, Resulting(o, Store()))
      ensures o.Ok? <==> ReservationLife.IsValid(q) && newId !in old(rows)
      ensures o.Ok? ==>
                && rows[newId].warehouse == q.warehouse && rows[newId].items == q.items
                && rows[newId].expires == now + (if q.ttl.Some? then q.ttl.value else 1800)
      ensures o.Ok? ==>
                && newId !in old(rows) && rows.Keys == old(rows).Keys + {newId}
                && now < rows[newId].expires <= now + R.DEFAULT_TTL
                && outbox == old(outbox)
                    + [ReservationRequested(newId, rows[newId].warehouse, rows[newId].items, rows[newId].expires)]
      ensures forall r | r in old(rows) :: r in rows && rows[r] == old(rows)[r]
    {
      ReservationLife.CreateDecides(Store(), now, q, newId);
      if !R.Validated(q) {
        return Err(Fault(ValidationError, 400));
      }
      var duplicate := HasDuplicate(q.items);
      if duplicate {
        return Err(Fault(ValidationError, 400));
      }
      if newId in rows {
        return Err(Broken(DuplicateKey));
      }
      var expires := now + if q.ttl.Some? then q.ttl.value else R.DEFAULT_TTL;
      rows := rows[newId := R.Reservation(q.warehouse, q.items, R.Pending, expires, None)];
      outbox := outbox + [ReservationRequested(newId, q.warehouse, q.items, expires)];
      o := Ok(());
    }

    method Cancel(id: Uuid) returns (o: Outcome<()>)
      modifies this
      ensures Follows(R.Cancel(old(Store()), id), old(Store()), o, Store())
      ensures ReservationLife.CancelsTo(old(Store()), id, Resulting(o, Store()))
      ensures o.Ok? ==> id in rows && rows[id].life in {R.Cancelling, R.Known(Cancelled)}
      ensures forall r | r in old(rows) ::
                r in rows && rows[r] == old(rows)[r].(life := rows[r].life)
                    && (R.Terminal(old(rows)[r].life) ==> rows[r] == old(rows)[r])
    {
      ReservationLife.CancelDecides(Store(), id);
      if id !in rows {
        return Err(Fault(NotFound, 404));
      }
      var r := rows[id];
      if r.life in {R.Known(Completed), R.Known(ExpiredStatus), R.Known(Rejected)} {
        return Err(Fail(InvalidState));
      }
      if r.life != R.Known(Cancelled) {
        outbox := outbox + [ReservationCancellationRequested(id, r.warehouse, None)];
        rows := rows[id := r.(life := R.Cancelling)];
      }
      o := Ok(());
    }

    method Handle(e: Event) returns (o: Outcome<()>)
      modifies this
      ensures Follows(R.Handle(old(Store()), e), old(Store()), o, Store())
      ensures ReservationLife.LearnsFrom(old(Store()), e, Resulting(o, Store()))
      ensures outbox == old(outbox) && rows.Keys == old(rows).Keys
      ensures forall r | r in old(rows) ::
                && (R.Terminal(old(rows)[r].life) ==> rows[r] == old(rows)[r])
                && (old(rows)[r].life == R.Cancelling ==> rows[r].life == R.Cancelling || R.Terminal(rows[r].life))
    {
      ReservationLife.HandleDecides(Store(), e);
      var news := R.Read(e);
      if news.None? {
        return Ok(());
      }
      var id, next := news.value.reservation, news.value.status;
      if id !in rows {
        return Err(Fault(NotFound, 404));
      }
      o := Ok(());
      if R.Terminal(rows[id].life) || (rows[id].life == R.Cancelling && next == Confirmed) {
        assert rows == rows[id := rows[id]];
        return;
      }
      rows := rows[id := rows[id].(life := R.Known(next), reason := news.value.reason)];
    }
  }
}
