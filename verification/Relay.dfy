/** The transactional outbox with one publisher: rows get their sequence numbers when they
    are inserted and become visible when their transaction commits; a publishing pass may
    fail after any prefix of its sends, and its marks are then rolled back although the
    messages are already in the broker log. */
module Relay {
  import opened Domain
  import opened Counting

  /** An outbox row: its sequence number and the warehouse that is its message key. */
  datatype Row = Row(sequence: nat, warehouse: Uuid)

  datatype State = State(
    next: nat,                        // the sequence generator
    open: map<Uuid, seq<Row>>,        // transactions holding a warehouse lock, with the rows they inserted
    committed: seq<Row>,              // in commit order
    published: set<nat>,              // rows with `published_at`
    log: seq<Row>)                    // what the broker has received

  const START := State(0, map[], [], {}, [])

  /** The rows one pass selects. */
  const BATCH := 50

  // ----- the pending rows, oldest first -----

  predicate Pending(s: State, x: Row) {
    x in s.committed && x.sequence !in s.published
  }

  /** `batch` is a result of the query: pending rows in sequence order, at most fifty, and
      none is left out in favour of a later one. */
  ghost predicate Selects(s: State, batch: seq<Row>) {
    && |batch| <= BATCH
    && (forall x | x in batch :: Pending(s, x))
    && (forall i, j | 0 <= i < j < |batch| :: batch[i].sequence < batch[j].sequence)
    && (forall x, y | Pending(s, x) && y in batch && x.sequence < y.sequence :: x in batch)
    && (|batch| < BATCH ==> forall x | Pending(s, x) :: x in batch)
  }

  // ----- steps -----

  datatype Step =
    | Lock(warehouse: Uuid)
    | Insert(warehouse: Uuid)
    | Commit(warehouse: Uuid)
    | Rollback(warehouse: Uuid)
    /** A pass over `batch` that sends its first `sent` rows and reaches its end or not. */
    | Publish(batch: seq<Row>, sent: nat, completes: bool)
    /** The broker stores a message it already has once more. */
    | Duplicate(index: nat)

  function Sequences(rows: seq<Row>): set<nat> {
    set x | x in rows :: x.sequence
  }

  ghost function Next(s: State, a: Step): State {
    match a
    case Lock(w) => if w in s.open then s else s.(open := s.open[w := []])
    case Insert(w) =>
      if w !in s.open then s
      else s.(next := s.next + 1, open := s.open[w := s.open[w] + [Row(s.next, w)]])
    case Commit(w) =>
      if w !in s.open then s else s.(open := s.open - {w}, committed := s.committed + s.open[w])
    case Rollback(w) => s.(open := s.open - {w})
    case Publish(batch, sent, completes) =>
      if !Selects(s, batch) || sent > |batch| then s
      else if sent == |batch| && completes then
        s.(log := s.log + batch, published := s.published + Sequences(batch))
      else s.(log := s.log + batch[..sent])
    case Duplicate(i) => if i < |s.log| then s.(log := s.log + [s.log[i]]) else s
  }

  ghost function Run(s: State, steps: seq<Step>): State
    decreases |steps|
  {
    if steps == [] then s else Run(Next(s, steps[0]), steps[1..])
  }

  // ----- what is read off the log -----

  /** The log without repetitions: each row where it first occurred. */
  function Firsts(log: seq<Row>): seq<Row> {
    if log == [] then []
    else
      var init, last := Firsts(log[..|log| - 1]), log[|log| - 1];
      if last in init then init else init + [last]
  }

  /** The rows of one warehouse. */
  function Of(w: Uuid, rows: seq<Row>): seq<Row> {
    if rows == [] then []
    else
      var init, last := Of(w, rows[..|rows| - 1]), rows[|rows| - 1];
      if last.warehouse == w then init + [last] else init
  }

  lemma {:induction false} OfMembers(w: Uuid, rows: seq<Row>)
    ensures forall x :: x in Of(w, rows) <==> x in rows && x.warehouse == w
  {
    if rows != [] {
      OfMembers(w, rows[..|rows| - 1]);
      assert rows == rows[..|rows| - 1] + [rows[|rows| - 1]];
    }
  }

  lemma {:induction false} OfAppend(w: Uuid, a: seq<Row>, b: seq<Row>)
    ensures Of(w, a + b) == Of(w, a) + Of(w, b)
  {
    if b == [] {
      assert a + b == a;
    } else {
      assert (a + b)[..|a + b| - 1] == a + b[..|b| - 1];
      OfAppend(w, a, b[..|b| - 1]);
    }
  }

  lemma {:induction false} FirstsMembers(log: seq<Row>)
    ensures forall x :: x in Firsts(log) <==> x in log
  {
    if log != [] {
      FirstsMembers(log[..|log| - 1]);
      assert log == log[..|log| - 1] + [log[|log| - 1]];
    }
  }

  /** Appending one message. */
  lemma FirstsAppend(log: seq<Row>, x: Row)
    ensures Firsts(log + [x]) == if x in log then Firsts(log) else Firsts(log) + [x]
  {
    FirstsMembers(log);
    assert (log + [x])[..|log|] == log;
  }

  // ----- the invariant -----

  ghost predicate Rising(rows: seq<Row>) {
    forall i, j | 0 <= i < j < |rows| :: rows[i].sequence < rows[j].sequence
  }

  /** Rows of one warehouse are committed in sequence order, because the warehouse lock is
      held from before the first insert until the commit. */
  ghost predicate Sorted(s: State) {
    && (forall w :: Rising(Of(w, s.committed)))
    && (forall x | x in s.committed :: x.sequence < s.next)
    && (forall w | w in s.open :: OpenSorted(s.open[w], w, s.next, s.committed))
    && (forall x, y | x in s.committed && y in s.committed && x.sequence == y.sequence :: x == y)
    && (forall w, v | w in s.open && v in s.open && w != v :: Apart(s.open[w], s.open[v]))
  }

  predicate Apart(a: seq<Row>, b: seq<Row>) {
    forall x, y | x in a && y in b :: x.sequence != y.sequence
  }

  /** The uncommitted rows of warehouse `w`: later than everything it has committed. */
  ghost predicate OpenSorted(rows: seq<Row>, w: Uuid, next: nat, committed: seq<Row>) {
    && Rising(rows)
    && (forall x | x in rows :: x.sequence < next && x.warehouse == w)
    && Apart(rows, committed)
    && (forall x, y | x in rows && y in committed && y.warehouse == w :: y.sequence < x.sequence)
  }

  /** A marked event is in the log, the log holds only committed events, and what the log
      holds of one warehouse is a prefix of what that warehouse has committed. */
  ghost predicate Delivered(s: State) {
    && (forall x | x in s.committed && x.sequence in s.published :: x in s.log)
    && (forall n | n in s.published :: exists x | x in s.committed :: x.sequence == n)
    && (forall x | x in s.log :: x in s.committed)
    && (forall w :: Of(w, Firsts(s.log)) <= Of(w, s.committed))
  }

  ghost predicate Good(s: State) {
    Sorted(s) && Delivered(s)
  }

  lemma RisingAppends(a: seq<Row>, b: seq<Row>)
    requires Rising(a) && Rising(b) && forall x, y | x in a && y in b :: x.sequence < y.sequence
    ensures Rising(a + b)
  {
  }

  lemma OfSelf(w: Uuid, rows: seq<Row>, v: Uuid)
    requires forall x | x in rows :: x.warehouse == w
    ensures Of(v, rows) == if v == w then rows else []
  {
    if rows != [] {
      OfSelf(w, rows[..|rows| - 1], v);
      assert rows == rows[..|rows| - 1] + [rows[|rows| - 1]];
    }
  }

  /** Publishing touches neither the sequence numbers nor the tables. */
  lemma SortedStays(s: State, t: State)
    requires Sorted(s) && t.next == s.next && t.open == s.open && t.committed == s.committed
    ensures Sorted(t)
  {
  }

  lemma DeliveredStays(s: State, t: State)
    requires Delivered(s) && t.committed == s.committed && t.published == s.published && t.log == s.log
    ensures Delivered(t)
  {
  }

  lemma RowInserted(rows: seq<Row>, w: Uuid, next: nat, committed: seq<Row>)
    requires OpenSorted(rows, w, next, committed) && forall y | y in committed :: y.sequence < next
    ensures OpenSorted(rows + [Row(next, w)], w, next + 1, committed)
  {
    RisingAppends(rows, [Row(next, w)]);
    hide Rising;
  }

  lemma OtherInserted(rows: seq<Row>, w: Uuid, next: nat, committed: seq<Row>)
    requires OpenSorted(rows, w, next, committed)
    ensures OpenSorted(rows, w, next + 1, committed)
  {
    hide Rising, Apart;
  }

  lemma ApartFromNew(a: seq<Row>, b: seq<Row>, w: Uuid, v: Uuid, next: nat, committed: seq<Row>)
    requires Apart(a, b) && Apart(b, a) && OpenSorted(b, v, next, committed)
    ensures Apart(a + [Row(next, w)], b) && Apart(b, a + [Row(next, w)])
  {
    hide Rising;
  }

  lemma AfterInsert(s: State, w: Uuid)
    requires Good(s) && w in s.open
    ensures Good(Next(s, Insert(w)))
  {
    var t := Next(s, Insert(w));
    DeliveredStays(s, t);
    hide Delivered, Rising, OpenSorted, Apart, Of;
    forall v | v in t.open ensures OpenSorted(t.open[v], v, t.next, t.committed) {
      if v == w {
        RowInserted(s.open[w], w, s.next, s.committed);
      } else {
        OtherInserted(s.open[v], v, s.next, s.committed);
      }
    }
    InsertedApart(s, w);
  }

  lemma InsertedApart(s: State, w: Uuid)
    requires Sorted(s) && w in s.open
    ensures var t := Next(s, Insert(w));
            forall v, u | v in t.open && u in t.open && v != u :: Apart(t.open[v], t.open[u])
  {
    hide Rising, Of;
    forall u | u in s.open && u != w
      ensures var rows := s.open[w] + [Row(s.next, w)];
              Apart(rows, s.open[u]) && Apart(s.open[u], rows)
    {
      ApartFromNew(s.open[w], s.open[u], w, u, s.next, s.committed);
    }
    hide OpenSorted, Apart;
  }

  lemma AfterCommit(s: State, w: Uuid)
    requires Good(s) && w in s.open
    ensures Good(Next(s, Commit(w)))
  {
    hide Of, Rising, Firsts;
    var t := Next(s, Commit(w));
    var rows := s.open[w];
    forall v ensures Rising(Of(v, t.committed)) && Of(v, s.committed) <= Of(v, t.committed) {
      OfAppend(v, s.committed, rows);
      OfSelf(w, rows, v);
      OfMembers(v, s.committed);
      RisingAppends(Of(v, s.committed), Of(v, rows));
    }
    forall v | v in t.open ensures OpenSorted(t.open[v], v, t.next, t.committed) {
      OtherCommitted(s.open[v], v, s.next, s.committed, w, rows);
    }
    RowsApart(s.committed, rows);
    forall n | n in t.published ensures exists x | x in t.committed :: x.sequence == n {
      var x :| x in s.committed && x.sequence == n;
      assert x in t.committed;
    }
    forall x | x in rows ensures x.sequence !in s.published {
      assert forall y | y in s.committed :: y.sequence != x.sequence;
    }
  }

  lemma OtherCommitted(rows: seq<Row>, v: Uuid, next: nat, committed: seq<Row>, w: Uuid, more: seq<Row>)
    requires OpenSorted(rows, v, next, committed) && OpenSorted(more, w, next, committed) && v != w
    requires Apart(rows, more)
    ensures OpenSorted(rows, v, next, committed + more)
  {
    hide Rising;
  }

  lemma RowsApart(a: seq<Row>, b: seq<Row>)
    requires Apart(b, a) && Rising(b)
    requires forall x, y | x in a && y in a && x.sequence == y.sequence :: x == y
    ensures forall x, y | x in a + b && y in a + b && x.sequence == y.sequence :: x == y
  {
  }

  lemma AfterRollback(s: State, w: Uuid)
    requires Good(s)
    ensures Good(Next(s, Rollback(w)))
  {
    DeliveredStays(s, Next(s, Rollback(w)));
    hide Delivered, OpenSorted, Apart, Of, Rising;
  }

  /** The oldest missing row extends a prefix of the commit order. */
  lemma NextOfPrefix(sent: seq<Row>, all: seq<Row>, x: Row)
    requires sent <= all && Rising(all) && x in all && x !in sent
    requires forall y | y in all && y.sequence < x.sequence :: y in sent
    ensures sent + [x] <= all
  {
    var i :| 0 <= i < |all| && all[i] == x;
    assert forall k | 0 <= k < |sent| :: sent[k] == all[k];
    assert |sent| < |all| ==> all[|sent|] !in sent;
  }

  /** One message: every earlier row of its warehouse is in the log already, so the first
      occurrences of the warehouse grow by its next committed row. */
  lemma OneSend(log: seq<Row>, committed: seq<Row>, x: Row, w: Uuid)
    requires Of(w, Firsts(log)) <= Of(w, committed) && Rising(Of(w, committed)) && x in committed
    requires forall y | y in committed && y.warehouse == x.warehouse && y.sequence < x.sequence :: y in log
    ensures Of(w, Firsts(log + [x])) <= Of(w, committed)
  {
    FirstsAppend(log, x);
    if x !in log {
      OfAppend(w, Firsts(log), [x]);
      OfSelf(x.warehouse, [x], w);
      FirstsMembers(log);
      OfMembers(w, Firsts(log));
      OfMembers(w, committed);
      hide Of, Firsts, Rising;
      if x.warehouse == w {
        NextOfPrefix(Of(w, Firsts(log)), Of(w, committed), x);
      }
    }
  }

  /** Every row of the same warehouse with a smaller number is in the log. */
  ghost predicate Prepared(s: State, x: Row) {
    x in s.committed
    && forall y | y in s.committed && y.warehouse == x.warehouse && y.sequence < x.sequence :: y in s.log
  }

  lemma SendKeeps(s: State, x: Row)
    requires Good(s) && Prepared(s, x)
    ensures Good(s.(log := s.log + [x]))
  {
    forall w ensures Of(w, Firsts(s.log + [x])) <= Of(w, s.committed) {
      OneSend(s.log, s.committed, x, w);
    }
    SortedStays(s, s.(log := s.log + [x]));
    hide Sorted, Of, Firsts;
  }

  /** The query leaves no older row of the warehouse out. */
  lemma BatchIsPrepared(s: State, batch: seq<Row>, k: nat)
    requires Good(s) && Selects(s, batch) && k < |batch|
    ensures Prepared(s.(log := s.log + batch[..k]), batch[k])
  {
    hide Sorted, Of, Firsts;
    var x := batch[k];
    forall y | y in s.committed && y.sequence < x.sequence
      ensures y in s.log + batch[..k]
    {
      if Pending(s, y) {
        assert x in batch;
        var i :| 0 <= i < |batch| && batch[i] == y;
        assert i < k;
        assert batch[..k][i] == y;
      }
    }
    assert Pending(s, batch[k]);
  }

  lemma {:induction false} SendingKeeps(s: State, batch: seq<Row>, sent: nat)
    requires Good(s) && Selects(s, batch) && sent <= |batch|
    ensures Good(s.(log := s.log + batch[..sent]))
    decreases sent
  {
    hide Good, Selects, Prepared;
    if sent == 0 {
      assert s.log + batch[..0] == s.log;
    } else {
      var t := s.(log := s.log + batch[..sent - 1]);
      SendingKeeps(s, batch, sent - 1);
      BatchIsPrepared(s, batch, sent - 1);
      SendKeeps(t, batch[sent - 1]);
      assert t.log + [batch[sent - 1]] == s.log + batch[..sent];
    }
  }

  lemma MarkingKeeps(s: State, batch: seq<Row>)
    requires Good(s) && forall x | x in batch :: x in s.log
    ensures Good(s.(published := s.published + Sequences(batch)))
  {
    var t := s.(published := s.published + Sequences(batch));
    forall x | x in t.committed && x.sequence in t.published ensures x in t.log {
      if x.sequence !in s.published {
        var y :| y in batch && y.sequence == x.sequence;
        assert y in s.committed;
      }
    }
    forall n | n in t.published ensures exists x | x in t.committed :: x.sequence == n {
      if n !in s.published {
        var y :| y in batch && y.sequence == n;
        assert y in t.committed;
      }
    }
    SortedStays(s, t);
    hide Sorted, Of, Firsts;
  }

  lemma NextKeeps(s: State, a: Step)
    requires Good(s)
    ensures Good(Next(s, a))
  {
    match a
    case Lock(w) => AfterLock(s, w);
    case Insert(w) => if w in s.open { AfterInsert(s, w); }
    case Commit(w) => if w in s.open { AfterCommit(s, w); }
    case Rollback(w) => AfterRollback(s, w);
    case Publish(batch, sent, completes) =>
      if Selects(s, batch) && sent <= |batch| {
        SendingKeeps(s, batch, sent);
        assert batch[..|batch|] == batch;
        hide Good;
        if sent == |batch| && completes {
          MarkingKeeps(s.(log := s.log + batch), batch);
        }
      }
    case Duplicate(i) =>
      hide Good;
      if i < |s.log| {
        AfterDuplicate(s, i);
      }
  }

  lemma AfterLock(s: State, w: Uuid)
    requires Good(s)
    ensures Good(Next(s, Lock(w)))
  {
    DeliveredStays(s, Next(s, Lock(w)));
    assert OpenSorted([], w, s.next, s.committed) && forall rows :: Apart([], rows) && Apart(rows, []);
    hide Delivered, OpenSorted, Apart, Of, Rising;
  }

  lemma AfterDuplicate(s: State, i: nat)
    requires Good(s) && i < |s.log|
    ensures Good(s.(log := s.log + [s.log[i]]))
  {
    var t := s.(log := s.log + [s.log[i]]);
    FirstsAppend(s.log, s.log[i]);
    SortedStays(s, t);
    hide Sorted, Of;
  }

  /** Over any run with one publisher: a marked event is in the log, the log holds only
      committed events, and the first occurrences for a warehouse are a prefix of its
      commit order. */
  lemma {:induction false} OutboxOrder(s: State, steps: seq<Step>)
    requires Good(s)
    ensures Good(Run(s, steps))
    decreases |steps|
  {
    if steps != [] {
      hide Good, Next;
      NextKeeps(s, steps[0]);
      OutboxOrder(Next(s, steps[0]), steps[1..]);
    }
  }

  lemma StartIsGood()
    ensures Good(START)
  {
  }

  // ----- coverage -----

  ghost function PendingRows(s: State): set<Row> {
    set x | x in s.committed && x.sequence !in s.published
  }

  /** A completed pass marks as many pending rows as fit into a batch. */
  lemma PassCovers(s: State, batch: seq<Row>)
    requires Good(s) && Selects(s, batch)
    ensures var t := Next(s, Publish(batch, |batch|, true));
            && t.committed == s.committed
            && |PendingRows(t)| == (if |PendingRows(s)| <= BATCH then 0 else |PendingRows(s)| - BATCH)
  {
    var t := Next(s, Publish(batch, |batch|, true));
    var taken := set x | x in batch;
    DistinctCount(batch);
    assert PendingRows(t) == PendingRows(s) - taken by {
      forall x | x in PendingRows(s) && x !in taken ensures x.sequence !in Sequences(batch) {
        assert forall y | y in batch :: Pending(s, y) && y in taken;
      }
    }
    assert taken <= PendingRows(s);
    if |batch| < BATCH {
      assert PendingRows(s) <= taken;
    }
  }

  /** A pass over a selection that sends everything and commits its marks. */
  ghost predicate Completes(s: State, a: Step) {
    a.Publish? && Selects(s, a.batch) && a.sent == |a.batch| && a.completes
  }

  ghost function CompletedPasses(s: State, steps: seq<Step>): nat
    decreases |steps|
  {
    if steps == [] then 0
    else
      var rest := CompletedPasses(Next(s, steps[0]), steps[1..]);
      if Completes(s, steps[0]) then 1 + rest else rest
  }

  /** Whatever else happens, nothing becomes pending without a commit. */
  lemma OtherStep(s: State, a: Step)
    requires !a.Commit? && !Completes(s, a)
    ensures Next(s, a).committed == s.committed && PendingRows(Next(s, a)) == PendingRows(s)
  {
    hide Selects;
  }

  lemma {:induction false} PassesDrain(s: State, steps: seq<Step>)
    requires Good(s) && forall a | a in steps :: !a.Commit?
    ensures var t := Run(s, steps);
            && Good(t) && t.committed == s.committed
            && (|PendingRows(t)| == 0 || |PendingRows(t)| + BATCH * CompletedPasses(s, steps) <= |PendingRows(s)|)
    decreases |steps|
  {
    if steps != [] {
      var a := steps[0];
      assert a in steps;
      NextKeeps(s, a);
      if Completes(s, a) { PassCovers(s, a.batch); } else { OtherStep(s, a); }
      hide Good, Next, PendingRows, Selects;
      PassesDrain(Next(s, a), steps[1..]);
    }
  }

  /** Over any run without new commits, with failing passes, repetitions, rollbacks and new
      transactions in between: `n` pending rows are all in the log once n / 50 passes have
      completed. */
  lemma PassesCover(s: State, steps: seq<Step>)
    requires Good(s) && forall a | a in steps :: !a.Commit?
    requires |PendingRows(s)| <= 50 * CompletedPasses(s, steps)
    ensures forall x | x in s.committed :: x in Run(s, steps).log
  {
    PassesDrain(s, steps);
    var t := Run(s, steps);
    assert PendingRows(t) == {};
    hide Run, CompletedPasses;
    forall x | x in t.committed ensures x in t.log { assert x !in PendingRows(t); }
  }
}
