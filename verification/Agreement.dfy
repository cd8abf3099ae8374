/** The reservation service agrees with the inventory service: over every run, a
    terminal status is the inventory's status, and once every event between the two
    has been processed, all statuses are equal. */
module Agreement {
  import opened Domain
  import opened Events
  import opened InventoryRules
  import opened Effects
  import opened Talk
  import opened System
  import opened SystemLogs
  import R = ReservationRules

  // ----- the invariant -----

  ghost predicate Asked(log: seq<Event>, r: Uuid) {
    exists j | 0 <= j < |log| :: log[j].ReservationRequested? && log[j].reservation == r
  }

  ghost predicate Recalled(log: seq<Event>, r: Uuid) {
    exists j | 0 <= j < |log| :: log[j].ReservationCancellationRequested? && log[j].reservation == r
  }

  predicate IsDecided(db: Db, r: Uuid) {
    r in db.bookings
  }

  predicate IsClosed(db: Db, r: Uuid) {
    r in db.bookings && db.bookings[r].status != Confirmed
  }

  /** What the reservation service has asked for, and what is true once it was processed. */
  ghost predicate RequestTrue(s: Sys, j: nat)
    requires j < |s.resv.outbox|
  {
    var e := s.resv.outbox[j];
    && (e.ReservationRequested? ==>
          && e.reservation in s.resv.rows
          && e.warehouse == s.resv.rows[e.reservation].warehouse
          && e.lines == s.resv.rows[e.reservation].items
          && (Done(s, Inventory, Reservations, j) ==> IsDecided(s.inv, e.reservation)))
    && (e.ReservationCancellationRequested? ==>
          && e.reservation in s.resv.rows
          && e.warehouse == s.resv.rows[e.reservation].warehouse
          && (Done(s, Inventory, Reservations, j) ==> IsClosed(s.inv, e.reservation)))
  }

  ghost predicate RowAsked(s: Sys, r: Uuid)
    requires r in s.resv.rows
  {
    Asked(s.resv.outbox, r) && (s.resv.rows[r].life == R.Cancelling ==> Recalled(s.resv.outbox, r))
  }

  ghost predicate Requests(s: Sys) {
    && (forall j | 0 <= j < |s.resv.outbox| :: RequestTrue(s, j))
    && (forall r | r in s.resv.rows :: RowAsked(s, r))
  }

  /** A known status is one the inventory has announced and not revoked. */
  ghost predicate LifeTrue(s: Sys, r: Uuid)
    requires r in s.resv.rows
  {
    s.resv.rows[r].life.Known? ==>
      r in s.inv.bookings && Consistent(s.inv.bookings[r].status, s.resv.rows[r].life.status)
  }

  /** A verdict that has been processed has been learnt. */
  ghost predicate VerdictHeard(s: Sys, i: nat)
    requires i < |s.inv.outbox|
  {
    var v := Verdict(s.inv.outbox[i]);
    (v.Some? && Done(s, Reservations, Inventory, i)) ==>
      && v.value.0 in s.resv.rows
      && s.resv.rows[v.value.0].life != R.Pending
      && (v.value.1 != Confirmed ==> R.Terminal(s.resv.rows[v.value.0].life))
  }

  ghost predicate BookingKnown(s: Sys, r: Uuid)
    requires r in s.inv.bookings
  {
    r in s.resv.rows && s.inv.bookings[r].warehouse == s.resv.rows[r].warehouse
  }

  ghost predicate ReservedAsAsked(s: Sys, e: Event) {
    e.StockReserved? ==> e.reservation in s.resv.rows && e.lines == s.resv.rows[e.reservation].items
  }

  ghost predicate Heard(s: Sys) {
    && (forall r | r in s.inv.bookings :: BookingKnown(s, r))
    && (forall r | r in s.resv.rows :: LifeTrue(s, r))
    && (forall i | 0 <= i < |s.inv.outbox| :: VerdictHeard(s, i))
    && (forall e | e in s.inv.outbox :: ReservedAsAsked(s, e))
  }

  ghost predicate Agree(s: Sys) {
    MarksReal(s) && Typed(s) && TalkOk(s.inv) && Requests(s) && Heard(s)
  }

  // ----- the theorems -----

  /** A terminal status of the reservation service is the inventory's status. */
  lemma TerminalAgrees(s: Sys, r: Uuid)
    requires Agree(s) && r in s.resv.rows && R.Terminal(s.resv.rows[r].life)
    ensures r in s.inv.bookings && s.resv.rows[r].life == R.Known(s.inv.bookings[r].status)
  {
    assert LifeTrue(s, r);
  }

  /** Every event between the two services has its inbox marker. */
  ghost predicate Settled(s: Sys) {
    && (forall j | 0 <= j < |s.resv.outbox| :: Done(s, Inventory, Reservations, j))
    && (forall i | 0 <= i < |s.inv.outbox| :: Done(s, Reservations, Inventory, i))
  }

  lemma RecalledIsClosed(s: Sys, r: Uuid)
    requires Agree(s) && Settled(s) && Recalled(s.resv.outbox, r)
    ensures IsClosed(s.inv, r)
  {
    var k :| 0 <= k < |s.resv.outbox| && s.resv.outbox[k].ReservationCancellationRequested?
        && s.resv.outbox[k].reservation == r;
    assert RequestTrue(s, k) && Done(s, Inventory, Reservations, k);
  }

  /** Once everything is processed, every reservation has the inventory's status,
      also when its cancellation overtook its confirmation. */
  lemma SettledAgrees(s: Sys, r: Uuid)
    requires Agree(s) && Settled(s) && r in s.resv.rows
    ensures r in s.inv.bookings && s.resv.rows[r].life == R.Known(s.inv.bookings[r].status)
  {
    assert RowAsked(s, r) && LifeTrue(s, r);
    var j :| 0 <= j < |s.resv.outbox| && s.resv.outbox[j].ReservationRequested? && s.resv.outbox[j].reservation == r;
    assert RequestTrue(s, j) && Done(s, Inventory, Reservations, j);
    var status := s.inv.bookings[r].status;
    var i :| 0 <= i < |s.inv.outbox| && Verdict(s.inv.outbox[i]) == Some((r, status));
    assert VerdictHeard(s, i) && Done(s, Reservations, Inventory, i);
    if s.resv.rows[r].life == R.Cancelling {
      RecalledIsClosed(s, r);
    }
  }
}
