/** Warehouse locks make transactions serialisable: transactions hold the lock of their
    warehouse, read its tables one after another while others commit, and write back at
    their commit; any interleaving ends in the state of running the transactions one at a
    time in commit order, and transactions of different warehouses commute. */
module Serial {
  import opened Domain
  import opened Events
  import opened InventoryRules
  import opened StockInvariant
  import opened LedgerInvariant
  import opened InventorySafety
  import opened Locality
  import opened LocalDecisions

  // ----- what a transaction of a warehouse gets to see -----

  /** The allocations of the reservations of the warehouse. */
  function AllocsOf(allocs: seq<Alloc>, bookings: map<Uuid, Booking>, w: Uuid): seq<Alloc> {
    if allocs == [] then []
    else
      var init, last := AllocsOf(allocs[..|allocs| - 1], bookings, w), allocs[|allocs| - 1];
      if last.reservation in bookings && bookings[last.reservation].warehouse == w then init + [last] else init
  }

  function Slice(world: map<Uuid, Site>, db: Db, w: Uuid): Db {
    Db(LotsOf(db.lots, w), AllocsOf(db.allocs, db.bookings, w), BookingsOf(db.bookings, w),
       LedgerOf(world, db.ledger, w), [])
  }

  /** Writing the rows of a finished transaction back. */
  function Install(db: Db, view: Db, result: Db): Db
    requires view.allocs <= result.allocs
  {
    Db(db.lots + result.lots, db.allocs + result.allocs[|view.allocs|..], db.bookings + result.bookings,
       db.ledger + result.ledger, db.outbox + result.outbox)
  }

  lemma {:induction false} AllocsOfMembers(allocs: seq<Alloc>, bookings: map<Uuid, Booking>, w: Uuid)
    ensures forall x :: x in AllocsOf(allocs, bookings, w) <==>
              x in allocs && x.reservation in bookings && bookings[x.reservation].warehouse == w
  {
    if allocs != [] {
      AllocsOfMembers(allocs[..|allocs| - 1], bookings, w);
      assert allocs == allocs[..|allocs| - 1] + [allocs[|allocs| - 1]];
    }
  }

  lemma {:induction false} RowsOfSlice(allocs: seq<Alloc>, bookings: map<Uuid, Booking>, w: Uuid, r: Uuid)
    requires r in bookings && bookings[r].warehouse == w
    ensures RowsOf(AllocsOf(allocs, bookings, w), r) == RowsOf(allocs, r)
  {
    if allocs != [] {
      var init, last := allocs[..|allocs| - 1], allocs[|allocs| - 1];
      RowsOfSlice(init, bookings, w, r);
      RowsAppend(AllocsOf(init, bookings, w), last, r);
    }
  }

  lemma SliceAlike(world: map<Uuid, Site>, db: Db, w: Uuid)
    ensures Alike(world, Slice(world, db, w), db, w)
  {
    var view := Slice(world, db, w);
    forall r | r in BookingsOf(view.bookings, w) ensures RowsOf(view.allocs, r) == RowsOf(db.allocs, r) {
      RowsOfSlice(db.allocs, db.bookings, w, r);
    }
    hide RowsOf, AllocsOf;
  }

  lemma SoundIsReady(world: map<Uuid, Site>, db: Db, w: Uuid)
    requires Sound(world, db)
    ensures Ready(world, db, w)
  {
    forall id | id in db.lots && db.lots[id].location.Some?
      ensures At(world, db.lots[id].location.value, db.lots[id].warehouse)
    {
      assert Housed(db, db.lots[id]) && RowTrue(world, db, db.lots[id].location.value);
    }
    forall id | id in db.lots ensures RowAllowed(db.lots[id]) { assert LotOk(db, id); }
    forall x | x in db.allocs ensures AllocOk(db, x) {}
  }

  lemma SliceReady(world: map<Uuid, Site>, db: Db, w: Uuid)
    requires Ready(world, db, w)
    ensures Ready(world, Slice(world, db, w), w)
  {
    AllocsOfMembers(db.allocs, db.bookings, w);
  }

  /** A transaction computed on the rows of its warehouse, written back, is the whole
      transaction. */
  lemma WriteBack(world: map<Uuid, Site>, db: Db, t: Transaction, w: Uuid)
    requires Sound(world, db) && Addressed(db, t, w) && HonestFor(world, db, t)
    ensures var view := Slice(world, db, w);
            && Outside(world, w, db, Commit(db, t))
            && view.allocs <= Commit(view, t).allocs
            && Commit(db, t) == Install(db, view, Commit(view, t))
  {
    var view := Slice(world, db, w);
    assert Addressed(view, t, w);
    hide Sound, Ready, Commit, Addressed, AllocsOf;
    SoundIsReady(world, db, w);
    SliceAlike(world, db, w);
    SliceReady(world, db, w);
    CommitBoth(world, w, view, db, t);
    TwinInstalls(world, w, db, Commit(view, t), Commit(db, t));
  }

  lemma TwinInstalls(world: map<Uuid, Site>, w: Uuid, db: Db, result: Db, after: Db)
    requires Twin(world, w, Slice(world, db, w), result, db, after)
    ensures after == Install(db, Slice(world, db, w), result)
  {
    var view := Slice(world, db, w);
    assert after.outbox == db.outbox + result.outbox;
    assert after.allocs == db.allocs + result.allocs[|view.allocs|..];
    LotsInstalled(w, db.lots, view.lots, result.lots, after.lots);
    BookingsInstalled(w, db.bookings, view.bookings, result.bookings, after.bookings);
    LedgerInstalled(world, w, db.ledger, view.ledger, result.ledger, after.ledger);
    hide LotsOutside, BookingsOutside, LedgerOutside, AllocsOf;
  }

  lemma LotsInstalled(w: Uuid, lots: map<Uuid, Lot>, view: map<Uuid, Lot>, result: map<Uuid, Lot>,
                      after: map<Uuid, Lot>)
    requires view == LotsOf(lots, w) && LotsOutside(w, view, result) && LotsOutside(w, lots, after)
    requires LotsOf(result, w) == LotsOf(after, w)
    ensures lots + result == after
  {
    assert forall id | id in result :: id in LotsOf(result, w) && result[id] == LotsOf(result, w)[id];
    assert forall id | id in after && after[id].warehouse == w :: id in LotsOf(after, w);
  }

  lemma BookingsInstalled(w: Uuid, bookings: map<Uuid, Booking>, view: map<Uuid, Booking>,
                          result: map<Uuid, Booking>, after: map<Uuid, Booking>)
    requires view == BookingsOf(bookings, w) && BookingsOutside(w, view, result) && BookingsOutside(w, bookings, after)
    requires BookingsOf(result, w) == BookingsOf(after, w)
    ensures bookings + result == after
  {
    assert forall r | r in result :: r in BookingsOf(result, w) && result[r] == BookingsOf(result, w)[r];
    assert forall r | r in after && after[r].warehouse == w :: r in BookingsOf(after, w);
  }

  lemma LedgerInstalled(world: map<Uuid, Site>, w: Uuid, ledger: map<Uuid, Capacity>, view: map<Uuid, Capacity>,
                        result: map<Uuid, Capacity>, after: map<Uuid, Capacity>)
    requires view == LedgerOf(world, ledger, w) && LedgerOutside(world, w, view, result)
    requires LedgerOutside(world, w, ledger, after)
    requires LedgerOf(world, result, w) == LedgerOf(world, after, w)
    ensures ledger + result == after
  {
    assert forall l | l in result :: l in LedgerOf(world, result, w) && result[l] == LedgerOf(world, result, w)[l];
    assert forall l | l in after && At(world, l, w) :: l in LedgerOf(world, after, w);
  }

  // ----- other warehouses -----

  lemma {:induction false} AllocsOfAppend(a: seq<Alloc>, b: seq<Alloc>, bookings: map<Uuid, Booking>, w: Uuid)
    ensures AllocsOf(a + b, bookings, w) == AllocsOf(a, bookings, w) + AllocsOf(b, bookings, w)
  {
    if b == [] {
      assert a + b == a;
    } else {
      assert (a + b)[..|a + b| - 1] == a + b[..|b| - 1];
      AllocsOfAppend(a, b[..|b| - 1], bookings, w);
    }
  }

  lemma {:induction false} AllocsOfOthers(allocs: seq<Alloc>, bookings: map<Uuid, Booking>,
                                          after: map<Uuid, Booking>, w: Uuid, v: Uuid)
    requires BookingsOutside(w, bookings, after) && v != w
    requires forall x | x in allocs :: x.reservation in bookings
    ensures AllocsOf(allocs, after, v) == AllocsOf(allocs, bookings, v)
  {
    if allocs != [] {
      AllocsOfOthers(allocs[..|allocs| - 1], bookings, after, w, v);
    }
  }

  lemma {:induction false} AllocsOfNone(allocs: seq<Alloc>, bookings: map<Uuid, Booking>, w: Uuid, v: Uuid)
    requires v != w && forall x | x in allocs :: x.reservation in BookingsOf(bookings, w)
    ensures AllocsOf(allocs, bookings, v) == []
  {
    if allocs != [] {
      AllocsOfNone(allocs[..|allocs| - 1], bookings, w, v);
    }
  }

  /** What happens outside a warehouse does not show in its rows. */
  lemma OthersUnseen(world: map<Uuid, Site>, w: Uuid, v: Uuid, db: Db, after: Db)
    requires Outside(world, w, db, after) && v != w && forall x | x in db.allocs :: x.reservation in db.bookings
    ensures Slice(world, after, v) == Slice(world, db, v)
  {
    var more := after.allocs[|db.allocs|..];
    assert after.allocs == db.allocs + more;
    AllocsOfAppend(db.allocs, more, after.bookings, v);
    AllocsOfOthers(db.allocs, db.bookings, after.bookings, w, v);
    AllocsOfNone(more, after.bookings, w, v);
    OtherLots(w, v, db.lots, after.lots);
    OtherBookings(w, v, db.bookings, after.bookings);
    OtherLedger(world, w, v, db.ledger, after.ledger);
    hide AllocsOf, LotsOf, BookingsOf, LedgerOf, LotsOutside, BookingsOutside, LedgerOutside;
  }

  lemma OtherLots(w: Uuid, v: Uuid, lots: map<Uuid, Lot>, after: map<Uuid, Lot>)
    requires LotsOutside(w, lots, after) && v != w
    ensures LotsOf(after, v) == LotsOf(lots, v)
  {
  }

  lemma OtherBookings(w: Uuid, v: Uuid, bookings: map<Uuid, Booking>, after: map<Uuid, Booking>)
    requires BookingsOutside(w, bookings, after) && v != w
    ensures BookingsOf(after, v) == BookingsOf(bookings, v)
  {
  }

  lemma OtherLedger(world: map<Uuid, Site>, w: Uuid, v: Uuid, ledger: map<Uuid, Capacity>, after: map<Uuid, Capacity>)
    requires LedgerOutside(world, w, ledger, after) && v != w
    ensures LedgerOf(world, after, v) == LedgerOf(world, ledger, v)
  {
  }

  // ----- interleaving -----

  datatype Table = Lots | Allocs | Bookings | Ledger

  /** A transaction that holds the lock of its warehouse: what it has read so far and what
      it is going to write. */
  datatype Session = Session(t: Transaction, view: Db, read: set<Table>, result: Option<Db>)

  /** The committed database, the open transactions by the warehouse they have locked, and
      the transactions in commit order. */
  datatype Shared = Shared(db: Db, sessions: map<Uuid, Session>, history: seq<Transaction>)

  datatype Step =
    | Lock(warehouse: Uuid, t: Transaction)
    | Read(warehouse: Uuid, table: Table)
    | Write(warehouse: Uuid)
    | Finish(warehouse: Uuid)
    | Abort(warehouse: Uuid)

  const TABLES := {Lots, Allocs, Bookings, Ledger}

  /** A query sees what is committed at the moment it is made. */
  function Fetch(world: map<Uuid, Site>, db: Db, w: Uuid, view: Db, table: Table): Db {
    match table
    case Lots => view.(lots := Slice(world, db, w).lots)
    case Allocs => view.(allocs := Slice(world, db, w).allocs)
    case Bookings => view.(bookings := Slice(world, db, w).bookings)
    case Ledger => view.(ledger := Slice(world, db, w).ledger)
  }

  predicate Permitted(world: map<Uuid, Site>, db: Db, t: Transaction, w: Uuid) {
    Addressed(db, t, w) && HonestFor(world, db, t)
  }

  function Next(world: map<Uuid, Site>, s: Shared, a: Step): Shared {
    match a
    case Lock(w, t) => if w in s.sessions then s else s.(sessions := s.sessions[w := Session(t, EMPTY, {}, None)])
    case Read(w, table) =>
      if w !in s.sessions || s.sessions[w].result.Some? then s
      else
        var x := s.sessions[w];
        s.(sessions := s.sessions[w := x.(view := Fetch(world, s.db, w, x.view, table), read := x.read + {table})])
    case Write(w) =>
      if w !in s.sessions || s.sessions[w].read != TABLES then s
      else
        var x := s.sessions[w];
        s.(sessions := s.sessions[w := x.(result := Some(Commit(x.view, x.t)))])
    case Finish(w) =>
      if w !in s.sessions || s.sessions[w].result.None? || !Permitted(world, s.db, s.sessions[w].t, w)
         || !(s.sessions[w].view.allocs <= s.sessions[w].result.value.allocs) then s
      else
        var x := s.sessions[w];
        Shared(Install(s.db, x.view, x.result.value), s.sessions - {w}, s.history + [x.t])
    case Abort(w) => s.(sessions := s.sessions - {w})
  }

  function Interleave(world: map<Uuid, Site>, s: Shared, steps: seq<Step>): Shared
    decreases |steps|
  {
    if steps == [] then s else Interleave(world, Next(world, s, steps[0]), steps[1..])
  }

  /** What a transaction has read is still what is committed for its warehouse. */
  ghost predicate Fresh(slice: Db, x: Session) {
    && (Lots in x.read ==> x.view.lots == slice.lots)
    && (Allocs in x.read ==> x.view.allocs == slice.allocs)
    && (Bookings in x.read ==> x.view.bookings == slice.bookings)
    && (Ledger in x.read ==> x.view.ledger == slice.ledger)
    && x.view.outbox == []
    && (x.result.Some? ==> x.read == TABLES && x.result.value == Commit(x.view, x.t))
  }

  ghost predicate Serialised(world: map<Uuid, Site>, start: Db, s: Shared) {
    && s.db == Run(start, s.history) && Sound(world, s.db)
    && forall w | w in s.sessions :: Fresh(Slice(world, s.db, w), s.sessions[w])
  }

  lemma {:induction false} RunAppends(db: Db, ts: seq<Transaction>, t: Transaction)
    ensures Run(db, ts + [t]) == Commit(Run(db, ts), t)
    decreases |ts|
  {
    if ts == [] {
      assert ts + [t] == [t];
    } else {
      assert (ts + [t])[1..] == ts[1..] + [t];
      RunAppends(Commit(db, ts[0]), ts[1..], t);
    }
  }

  lemma AfterFinish(world: map<Uuid, Site>, start: Db, s: Shared, w: Uuid)
    requires Serialised(world, start, s) && w in s.sessions && s.sessions[w].result.Some?
    requires Permitted(world, s.db, s.sessions[w].t, w)
    ensures Serialised(world, start, Next(world, s, Finish(w)))
  {
    var x := s.sessions[w];
    var view := Slice(world, s.db, w);
    assert Fresh(view, x) && x.view == view;
    hide Commit, Slice, Addressed, Sound, Run, HonestFor;
    WriteBack(world, s.db, x.t, w);
    var t := Next(world, s, Finish(w));
    assert t.db == Commit(s.db, x.t) && t.history == s.history + [x.t] && t.sessions == s.sessions - {w};
    CommitSafe(world, s.db, x.t);
    RunAppends(start, s.history, x.t);
    NoOrphans(world, s.db);
    forall v | v in t.sessions ensures Fresh(Slice(world, t.db, v), t.sessions[v]) {
      OthersUnseen(world, w, v, s.db, t.db);
    }
    hide Fresh, Install;
  }

  lemma NoOrphans(world: map<Uuid, Site>, db: Db)
    requires Sound(world, db)
    ensures forall x | x in db.allocs :: x.reservation in db.bookings
  {
    forall x | x in db.allocs ensures x.reservation in db.bookings { assert AllocOk(db, x); }
  }

  lemma NextSerialised(world: map<Uuid, Site>, start: Db, s: Shared, a: Step)
    requires Serialised(world, start, s)
    ensures Serialised(world, start, Next(world, s, a))
  {
    hide Sound, Commit, Slice, Addressed, Run;
    match a
    case Finish(w) => if Next(world, s, a) != s { hide Serialised; AfterFinish(world, start, s, w); }
    case _ =>
  }

  /** Any interleaving of transactions of any warehouses ends in the state of running them
      one at a time in commit order. */
  lemma {:induction false} Serialisable(world: map<Uuid, Site>, start: Db, s: Shared, steps: seq<Step>)
    requires Serialised(world, start, s)
    ensures Serialised(world, start, Interleave(world, s, steps))
    decreases |steps|
  {
    if steps != [] {
      hide Serialised, Next;
      NextSerialised(world, start, s, steps[0]);
      Serialisable(world, start, Next(world, s, steps[0]), steps[1..]);
    }
  }

  lemma CommitOrderDecides(world: map<Uuid, Site>, start: Db, steps: seq<Step>)
    requires Sound(world, start)
    ensures var s := Interleave(world, Shared(start, map[], []), steps);
            s.db == Run(start, s.history) && Sound(world, s.db)
  {
    hide Sound;
    Serialisable(world, start, Shared(start, map[], []), steps);
  }

  // ----- commuting -----

  /** The rows and events one transaction adds. */
  function NewEvents(db: Db, t: Transaction): seq<Event> {
    if db.outbox <= Commit(db, t).outbox then Commit(db, t).outbox[|db.outbox|..] else []
  }

  function NewAllocs(db: Db, t: Transaction): seq<Alloc> {
    if db.allocs <= Commit(db, t).allocs then Commit(db, t).allocs[|db.allocs|..] else []
  }

  /** The result of a transaction on its slice holds rows of its warehouse only. */
  predicate OnlyOf(world: map<Uuid, Site>, w: Uuid, result: Db) {
    && (forall id | id in result.lots :: result.lots[id].warehouse == w)
    && (forall r | r in result.bookings :: result.bookings[r].warehouse == w)
    && (forall l | l in result.ledger :: At(world, l, w))
  }

  lemma SliceStays(world: map<Uuid, Site>, db: Db, t: Transaction, w: Uuid)
    requires Sound(world, db) && Permitted(world, db, t, w)
    ensures var view := Slice(world, db, w); OnlyOf(world, w, Commit(view, t)) && view.outbox == []
  {
    var view := Slice(world, db, w);
    assert Addressed(view, t, w);
    SoundIsReady(world, db, w);
    SliceAlike(world, db, w);
    SliceReady(world, db, w);
    assert OnlyOf(world, w, view);
    hide Commit, Sound, Addressed, Slice, Ready, HonestFor, Alike, AllocsOf;
    CommitBoth(world, w, view, db, t);
    OnlyStays(world, w, view, Commit(view, t));
  }

  lemma OnlyStays(world: map<Uuid, Site>, w: Uuid, view: Db, result: Db)
    requires OnlyOf(world, w, view) && Outside(world, w, view, result)
    ensures OnlyOf(world, w, result)
  {
  }

  /** The second of two transactions writes back what it computes on the first database. */
  lemma Second(world: map<Uuid, Site>, db: Db, t: Transaction, w: Uuid, u: Transaction, v: Uuid)
    requires Sound(world, db) && w != v && Permitted(world, db, t, w) && Permitted(world, Commit(db, t), u, v)
    ensures var first, vu := Commit(db, t), Slice(world, db, v);
            && vu.allocs <= Commit(vu, u).allocs
            && Commit(first, u) == Install(first, vu, Commit(vu, u))
            && Outside(world, v, first, Commit(first, u))
  {
    hide Commit, Sound, Addressed, Slice, HonestFor, Outside;
    WriteBack(world, db, t, w);
    CommitSafe(world, db, t);
    NoOrphans(world, db);
    OthersUnseen(world, w, v, db, Commit(db, t));
    WriteBack(world, Commit(db, t), u, v);
  }

  lemma Added(world: map<Uuid, Site>, db: Db, t: Transaction, w: Uuid)
    requires Sound(world, db) && Permitted(world, db, t, w)
    ensures var view := Slice(world, db, w);
            && view.allocs <= Commit(view, t).allocs && Commit(db, t) == Install(db, view, Commit(view, t))
            && NewEvents(db, t) == Commit(view, t).outbox && NewAllocs(db, t) == Commit(view, t).allocs[|view.allocs|..]
  {
    hide Commit, Sound, Addressed, Slice, HonestFor, Outside;
    WriteBack(world, db, t, w);
  }

  /** Transactions of different warehouses commute: whichever comes first, the tables are
      the same and the log holds the same two groups of events. */
  lemma WarehousesCommute(world: map<Uuid, Site>, db: Db, t: Transaction, w: Uuid, u: Transaction, v: Uuid)
    requires Sound(world, db) && w != v
    requires Permitted(world, db, t, w) && Permitted(world, Commit(db, t), u, v)
    requires Permitted(world, db, u, v) && Permitted(world, Commit(db, u), t, w)
    ensures var a, b := Commit(Commit(db, t), u), Commit(Commit(db, u), t);
            && a.lots == b.lots && a.bookings == b.bookings && a.ledger == b.ledger
            && a.outbox == db.outbox + NewEvents(db, t) + NewEvents(db, u)
            && b.outbox == db.outbox + NewEvents(db, u) + NewEvents(db, t)
            && a.allocs == db.allocs + NewAllocs(db, t) + NewAllocs(db, u)
            && b.allocs == db.allocs + NewAllocs(db, u) + NewAllocs(db, t)
  {
    hide Commit, Sound, Permitted, Slice, NewEvents, NewAllocs, Outside, OnlyOf;
    Added(world, db, t, w);
    Added(world, db, u, v);
    Second(world, db, t, w, u, v);
    Second(world, db, u, v, t, w);
    SliceStays(world, db, t, w);
    SliceStays(world, db, u, v);
    var rt, ru := Commit(Slice(world, db, w), t), Commit(Slice(world, db, v), u);
    RowsApart(world, Commit(db, t), rt, ru, w, v, Commit(Commit(db, t), u));
    DisjointUnion(db.lots, rt.lots, ru.lots);
    DisjointUnion(db.bookings, rt.bookings, ru.bookings);
    DisjointUnion(db.ledger, rt.ledger, ru.ledger);
  }

  lemma DisjointUnion<V>(m: map<Uuid, V>, a: map<Uuid, V>, b: map<Uuid, V>)
    requires a.Keys !! b.Keys
    ensures m + a + b == m + b + a
  {
  }

  /** Two transactions of different warehouses write different rows. */
  lemma RowsApart(world: map<Uuid, Site>, first: Db, rt: Db, ru: Db, w: Uuid, v: Uuid, second: Db)
    requires w != v && OnlyOf(world, w, rt) && OnlyOf(world, v, ru) && Outside(world, v, first, second)
    requires forall id | id in rt.lots :: id in first.lots && first.lots[id] == rt.lots[id]
    requires forall r | r in rt.bookings :: r in first.bookings && first.bookings[r] == rt.bookings[r]
    requires second.lots == first.lots + ru.lots && second.bookings == first.bookings + ru.bookings
    ensures rt.lots.Keys !! ru.lots.Keys && rt.bookings.Keys !! ru.bookings.Keys && rt.ledger.Keys !! ru.ledger.Keys
  {
    assert forall id | id in rt.lots && id in ru.lots :: second.lots[id] == ru.lots[id];
    assert forall r | r in rt.bookings && r in ru.bookings :: second.bookings[r] == ru.bookings[r];
  }
}
