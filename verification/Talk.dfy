/** The inventory log speaks consistently about every reservation: it announces the
    status every booking has, first the confirmation and at most one closing, and
    nothing else. */
module Talk {
  import opened Domain
  import opened Events
  import opened InventoryRules
  import opened StockInvariant
  import opened Effects

  /** A reservation that has status `current` may have been announced with status `said`. */
  predicate Consistent(current: Status, said: Status) {
    current == said || (said == Confirmed && current != Rejected)
  }

  ghost predicate Said(log: seq<Event>, r: Uuid, status: Status) {
    exists i | 0 <= i < |log| :: Verdict(log[i]) == Some((r, status))
  }

  ghost predicate Truthful(db: Db) {
    forall i | 0 <= i < |db.outbox| && Verdict(db.outbox[i]).Some? ::
      var v := Verdict(db.outbox[i]).value;
      v.0 in db.bookings && Consistent(db.bookings[v.0].status, v.1)
  }

  ghost predicate Complete(db: Db) {
    forall r | r in db.bookings ::
      Said(db.outbox, r, db.bookings[r].status) && (db.bookings[r].status != Rejected ==> Said(db.outbox, r, Confirmed))
  }

  /** Two verdicts on one reservation are its confirmation and then its closing. */
  ghost predicate Orderly(log: seq<Event>) {
    forall i, k | 0 <= i < k < |log| && Verdict(log[i]).Some? && Verdict(log[k]).Some? ::
      Verdict(log[i]).value.0 == Verdict(log[k]).value.0 ==>
        && Verdict(log[i]).value.1 == Confirmed
        && Verdict(log[k]).value.1 != Confirmed && Verdict(log[k]).value.1 != Rejected
  }

  ghost predicate TalkOk(db: Db) {
    Truthful(db) && Complete(db) && Orderly(db.outbox)
  }

  lemma SaidGrows(log: seq<Event>, longer: seq<Event>, r: Uuid, status: Status)
    requires log <= longer && Said(log, r, status)
    ensures Said(longer, r, status)
  {
    var i :| 0 <= i < |log| && Verdict(log[i]) == Some((r, status));
    assert longer[i] == log[i];
  }

  /** New events without a verdict keep the talk consistent. */
  lemma QuietTalk(db: Db, after: Db)
    requires TalkOk(db) && after.bookings == db.bookings && db.outbox <= after.outbox
    requires forall i | |db.outbox| <= i < |after.outbox| :: Verdict(after.outbox[i]).None?
    ensures TalkOk(after)
  {
    forall i | 0 <= i < |after.outbox| && Verdict(after.outbox[i]).Some? ensures after.outbox[i] == db.outbox[i] {}
    forall r | r in after.bookings
      ensures Said(after.outbox, r, after.bookings[r].status)
      ensures after.bookings[r].status != Rejected ==> Said(after.outbox, r, Confirmed)
    {
      SaidGrows(db.outbox, after.outbox, r, db.bookings[r].status);
      if db.bookings[r].status != Rejected { SaidGrows(db.outbox, after.outbox, r, Confirmed); }
    }
  }

  /** One verdict is appended together with the booking it announces. */
  lemma VerdictTalk(db: Db, r: Uuid, b: Booking, e: Event)
    requires TalkOk(db) && Legal(db.bookings, r, b) && Verdict(e) == Some((r, b.status))
    ensures TalkOk(Emit(db.(bookings := db.bookings[r := b]), e))
  {
    var after := Emit(db.(bookings := db.bookings[r := b]), e);
    assert after.outbox[|db.outbox|] == e;
    assert Truthful(after) && Orderly(after.outbox);
    forall x | x in after.bookings
      ensures Said(after.outbox, x, after.bookings[x].status)
      ensures after.bookings[x].status != Rejected ==> Said(after.outbox, x, Confirmed)
    {
      if x in db.bookings {
        SaidGrows(db.outbox, after.outbox, x, db.bookings[x].status);
        if db.bookings[x].status != Rejected { SaidGrows(db.outbox, after.outbox, x, Confirmed); }
      }
      if x == r { assert Verdict(after.outbox[|db.outbox|]) == Some((x, after.bookings[x].status)); }
    }
  }

  lemma AnnouncedTalk(db: Db, after: Db, r: Uuid, e: Event)
    requires TalkOk(db) && Announced(db, after, r, e)
    ensures TalkOk(after)
  {
    var log := after.outbox[..|after.outbox| - 1];
    var told := db.(outbox := log);
    QuietTalk(db, told);
    assert after.outbox == log + [e];
    hide TalkOk;
    VerdictTalk(told, r, after.bookings[r], e);
    SameTalk(Emit(told.(bookings := after.bookings), e), after);
  }

  lemma SameTalk(db: Db, after: Db)
    requires TalkOk(db) && after.bookings == db.bookings && after.outbox == db.outbox
    ensures TalkOk(after)
  {
  }

  lemma TransactionTalk(db: Db, t: Transaction)
    requires StockOk(db) && TalkOk(db)
    ensures TalkOk(Commit(db, t))
  {
    hide StockOk, TalkOk, Grows, Announced, Commit;
    TransactionEffect(db, t);
    var after := Commit(db, t);
    if Hushed(db, after) {
      QuietTalk(db, after);
    } else if exists r, e :: Announced(db, after, r, e) {
      var r, e :| Announced(db, after, r, e);
      AnnouncedTalk(db, after, r, e);
    } else {
      var r, s :| Declined(db, after, r, s);
      QuietTalk(db, after);
    }
  }

  /** The event ends the reservation: its units are given back or deducted. */
  predicate Closes(e: Event, r: Uuid) {
    Verdict(e).Some? && Verdict(e).value.0 == r && Verdict(e).value.1 in {Cancelled, ExpiredStatus, Completed}
  }

  /** How often the log ends the reservation. */
  function Closings(log: seq<Event>, r: Uuid): nat {
    if log == [] then 0 else Closings(log[..|log| - 1], r) + if Closes(log[|log| - 1], r) then 1 else 0
  }

  lemma {:induction false} AtMostOne(log: seq<Event>, r: Uuid)
    requires Orderly(log)
    ensures Closings(log, r) == if exists i :: 0 <= i < |log| && Closes(log[i], r) then 1 else 0
  {
    if log != [] {
      var init, n := log[..|log| - 1], |log| - 1;
      assert Orderly(init) by { forall i | 0 <= i < n ensures init[i] == log[i] {} }
      AtMostOne(init, r);
      if Closes(log[n], r) {
        forall i | 0 <= i < n ensures !Closes(init[i], r) { assert init[i] == log[i]; }
      } else {
        assert forall i | 0 <= i < n :: init[i] == log[i];
      }
    }
  }

  /** The log ends a reservation exactly once when it is closed, and never otherwise. */
  lemma ClosingsCount(db: Db, r: Uuid)
    requires TalkOk(db)
    ensures Closings(db.outbox, r) == if r in db.bookings
              && db.bookings[r].status in {Cancelled, ExpiredStatus, Completed} then 1 else 0
  {
    AtMostOne(db.outbox, r);
    hide Closings, Orderly;
    if r in db.bookings && db.bookings[r].status in {Cancelled, ExpiredStatus, Completed} {
      var i :| 0 <= i < |db.outbox| && Verdict(db.outbox[i]) == Some((r, db.bookings[r].status));
      assert Closes(db.outbox[i], r);
    }
  }
}
