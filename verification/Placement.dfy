/** No lot is lost: a lot without a location is always being placed, in every reachable
    state, and it is placed at most once. */
module Placement {
  import opened Domain
  import opened Events
  import opened InventoryRules
  import opened StockInvariant
  import opened Effects
  import opened System
  import opened SystemLogs
  import opened PlacementLog
  import AgreementKept
  import P = PlacementRules

  /** A lot that still has to be put somewhere. */
  predicate Homeless(db: Db, id: Uuid) {
    id in db.lots && db.lots[id].location.None? && db.lots[id].quantity > 0
  }

  predicate IsPlaced(db: Db, id: Uuid) {
    id in db.lots && db.lots[id].location.Some?
  }

  predicate IsAssignment(log: seq<Event>, j: nat, id: Uuid) {
    j < |log| && log[j].ProductPlacementAssigned? && log[j].stock == id
  }

  predicate IsRefusal(log: seq<Event>, i: nat, id: Uuid) {
    i < |log| && log[i].PlacementRejected? && log[i].stock == id
  }

  // ----- the invariant -----

  /** Somebody will hear of the lot: its receipt is still to be processed. */
  ghost predicate ReceiptPending(s: Sys, id: Uuid) {
    exists i: nat :: IsReceived(s.inv.outbox, i, id) && !Done(s, Placements, Inventory, i)
  }

  /** The assignment of the lot, or its refusal, is still to be processed. */
  ghost predicate AnswerPending(s: Sys, id: Uuid) {
    || (exists j: nat :: IsAssignment(s.place.outbox, j, id) && !Done(s, Inventory, Placements, j))
    || (exists i: nat :: IsRefusal(s.inv.outbox, i, id) && !Done(s, Placements, Inventory, i))
  }

  ghost predicate Tracked(s: Sys, id: Uuid) {
    Homeless(s.inv, id) ==>
      if id !in s.place.jobs then ReceiptPending(s, id)
      else
        || s.place.jobs[id].status == P.Waiting
        || (s.place.jobs[id].status == P.Assigned && AnswerPending(s, id))
  }

  /** A job is about a lot of the inventory, and a finished one about a placed lot. */
  ghost predicate JobTrue(s: Sys, id: Uuid)
    requires id in s.place.jobs
  {
    id in s.inv.lots && (s.place.jobs[id].status == P.Placed ==> IsPlaced(s.inv, id))
  }

  /** What a locked job has read about its lot is out of date at most by withdrawals. */
  ghost predicate ViewTrue(s: Sys, id: Uuid)
    requires id in s.reading
  {
    && id in s.place.jobs && s.place.jobs[id].status == P.Waiting
    && id in s.inv.lots
    && (s.reading[id].quantity == 0 ==> !Homeless(s.inv, id))
    && (s.reading[id].location.Some? ==> IsPlaced(s.inv, id))
  }

  ghost predicate JobsOk(s: Sys) {
    && (forall id | id in s.inv.lots :: Tracked(s, id))
    && (forall id | id in s.place.jobs :: JobTrue(s, id))
    && (forall id | id in s.reading :: ViewTrue(s, id))
  }

  // ----- the inventory moves -----

  /** Markers of other deliveries do not matter to the placement service. */
  ghost predicate SameMarks(s: Sys, t: Sys) {
    && (forall i | 0 <= i :: Done(t, Placements, Inventory, i) <==> Done(s, Placements, Inventory, i))
    && (forall j | 0 <= j :: Done(t, Inventory, Placements, j) <==> Done(s, Inventory, Placements, j))
  }

  lemma ReceiptStays(s: Sys, t: Sys, id: Uuid)
    requires ReceiptPending(s, id) && s.inv.outbox <= t.inv.outbox
    requires forall i: nat | IsReceived(s.inv.outbox, i, id) :: Done(t, Placements, Inventory, i) ==>
              Done(s, Placements, Inventory, i)
    ensures ReceiptPending(t, id)
  {
    var i: nat :| IsReceived(s.inv.outbox, i, id) && !Done(s, Placements, Inventory, i);
    assert IsReceived(t.inv.outbox, i, id);
  }

  lemma AnswerStays(s: Sys, t: Sys, id: Uuid)
    requires AnswerPending(s, id) && s.inv.outbox <= t.inv.outbox && s.place.outbox <= t.place.outbox
    requires forall j: nat | IsAssignment(s.place.outbox, j, id) :: Done(t, Inventory, Placements, j) ==>
              Done(s, Inventory, Placements, j)
    requires forall i: nat | IsRefusal(s.inv.outbox, i, id) :: Done(t, Placements, Inventory, i) ==>
              Done(s, Placements, Inventory, i)
    ensures AnswerPending(t, id)
  {
    if j: nat :| IsAssignment(s.place.outbox, j, id) && !Done(s, Inventory, Placements, j) {
      assert IsAssignment(t.place.outbox, j, id);
    } else {
      var i: nat :| IsRefusal(s.inv.outbox, i, id) && !Done(s, Placements, Inventory, i);
      assert IsRefusal(t.inv.outbox, i, id);
    }
  }

  /** A new lot is placed or announced by an event that nobody can have processed. */
  lemma NewLotTracked(s: Sys, t: Sys, id: Uuid)
    requires MarksReal(s) && Welcomed(s.inv, t.inv) && id in t.inv.lots && id !in s.inv.lots && id !in s.place.jobs
    requires t.place == s.place
    requires forall i | 0 <= i :: Done(t, Placements, Inventory, i) ==> Done(s, Placements, Inventory, i)
    ensures Tracked(t, id)
  {
    if Homeless(t.inv, id) {
      var i: nat :| |s.inv.outbox| <= i && IsReceived(t.inv.outbox, i, id);
      assert !Done(s, Placements, Inventory, i);
    }
  }

  lemma JobsStayTrue(s: Sys, t: Sys)
    requires JobsOk(s) && StockOk(s.inv) && Grows(s.inv, t.inv) && t.place == s.place && t.reading == s.reading
    ensures forall id | id in t.place.jobs :: JobTrue(t, id)
    ensures forall id | id in t.reading :: ViewTrue(t, id)
  {
    forall id | id in t.place.jobs
      ensures JobTrue(t, id)
    {
      assert JobTrue(s, id);
    }
    forall id | id in t.reading
      ensures ViewTrue(t, id)
    {
      assert ViewTrue(s, id);
    }
  }

  /** The inventory moves without consuming an assignment. */
  lemma JobsAfterMove(s: Sys, t: Sys)
    requires JobsOk(s) && StockOk(s.inv) && MarksReal(s) && Grows(s.inv, t.inv) && Welcomed(s.inv, t.inv)
    requires t.place == s.place && t.reading == s.reading && SameMarks(s, t)
    ensures JobsOk(t)
  {
    JobsStayTrue(s, t);
    hide StockOk, Welcomed, ViewTrue, ReceiptPending, AnswerPending;
    assert s.inv.outbox <= t.inv.outbox;
    forall id | id in t.inv.lots
      ensures Tracked(t, id)
    {
      if id in s.inv.lots {
        assert Tracked(s, id);
        hide Grows;
        if Homeless(s.inv, id) {
          if id !in s.place.jobs { ReceiptStays(s, t, id); }
          else if s.place.jobs[id].status == P.Assigned { AnswerStays(s, t, id); }
        }
      } else {
        assert id in s.place.jobs ==> JobTrue(s, id);
        NewLotTracked(s, t, id);
      }
    }
  }

  // ----- the inventory consumes an assignment -----

  /** The assignment was answered by placing the lot, or by a refusal that is still to be processed. */
  lemma AssignedLotTracked(s: Sys, id: Uuid, t: Sys)
    requires MarksReal(s) && Tracked(s, id) && StockOk(s.inv) && Grows(s.inv, t.inv) && id in s.inv.lots
    requires t == s.(inv := t.inv, done := t.done)
    requires forall i | 0 <= i :: Done(t, Placements, Inventory, i) <==> Done(s, Placements, Inventory, i)
    requires Homeless(t.inv, id) ==>
               && |t.inv.outbox| > |s.inv.outbox|
               && IsRefusal(t.inv.outbox, |t.inv.outbox| - 1, id)
    ensures Tracked(t, id)
  {
    assert s.inv.outbox <= t.inv.outbox;
    hide Grows, StockOk;
    if Homeless(t.inv, id) {
      assert !Done(s, Placements, Inventory, |t.inv.outbox| - 1);
      if id !in s.place.jobs { ReceiptStays(s, t, id); }
    }
  }

  lemma JobsAfterAssignment(s: Sys, ref: Ref, reply: Reply<Location>, t: Sys)
    requires JobsOk(s) && MarksReal(s) && Typed(s) && StockOk(s.inv) && Grows(s.inv, t.inv) && Welcomed(s.inv, t.inv)
    requires ref.index < |Log(s, ref.source)| && Log(s, ref.source)[ref.index].ProductPlacementAssigned?
    requires var o := InventoryRules.Handle(s.inv, s.now, Log(s, ref.source)[ref.index], reply);
             o.Ok? && t == s.(inv := o.value, done := s.done + {Mark(Inventory, ref)})
    ensures JobsOk(t)
  {
    hide InventoryRules.Handle, Welcomed, ViewTrue, ReceiptPending, AnswerPending, StockOk, Typed;
    var e := Log(s, ref.source)[ref.index];
    AgreementKept.TypedOne(s, ref.source, e);
    AssignmentAnswered(s.inv, s.now, e, reply);
    JobsStayTrue(s, t);
    assert s.inv.outbox <= t.inv.outbox;
    forall id | id in t.inv.lots
      ensures Tracked(t, id)
    {
      if id !in s.inv.lots {
        assert id in s.place.jobs ==> JobTrue(s, id);
        NewLotTracked(s, t, id);
      } else {
        assert Tracked(s, id);
        if id == e.stock {
          AssignedLotTracked(s, id, t);
        } else {
          OtherLotTracked(s, id, t);
        }
      }
    }
  }

  /** A lot that the step is not about stays tracked. */
  lemma OtherLotTracked(s: Sys, id: Uuid, t: Sys)
    requires Tracked(s, id) && StockOk(s.inv) && Grows(s.inv, t.inv) && id in s.inv.lots
    requires s.place.outbox <= t.place.outbox && (id in s.place.jobs <==> id in t.place.jobs)
    requires id in s.place.jobs ==> t.place.jobs[id] == s.place.jobs[id]
    requires forall j: nat | IsAssignment(s.place.outbox, j, id) :: Done(t, Inventory, Placements, j) ==>
              Done(s, Inventory, Placements, j)
    requires forall i: nat | IsRefusal(s.inv.outbox, i, id) || IsReceived(s.inv.outbox, i, id) ::
               Done(t, Placements, Inventory, i) ==> Done(s, Placements, Inventory, i)
    ensures Tracked(t, id)
  {
    assert s.inv.outbox <= t.inv.outbox;
    hide Grows, StockOk, ReceiptPending, AnswerPending;
    if Homeless(t.inv, id) {
      if id !in s.place.jobs { ReceiptStays(s, t, id); }
      else if s.place.jobs[id].status == P.Assigned { AnswerStays(s, t, id); }
    }
  }

  // ----- the placement service consumes an event -----

  /** The lot an event tells the placement service about. */
  function Subject(e: Event): Option<Uuid> {
    match e
    case GoodsReceived(stock, _, _, _, _, _) => Some(stock)
    case PlacementRejected(stock, _, _, _) => Some(stock)
    case StockAdded(stock, _, _, _, _) => Some(stock)
    case _ => None
  }

  /** The job of the lot that the event is about. */
  lemma SubjectTracked(s: Sys, id: Uuid, e: Event, t: Sys)
    requires JobsOk(s) && PlacedOnce(s.inv) && e in s.inv.outbox && Subject(e) == Some(id) && id in s.inv.lots
    requires t.inv == s.inv && t.place == P.Handle(s.place, s.now, e)
    requires !e.GoodsReceived? ==> forall i: nat | IsReceived(s.inv.outbox, i, id) ::
               Done(t, Placements, Inventory, i) ==> Done(s, Placements, Inventory, i)
    requires e.GoodsReceived? ==> forall i: nat | IsRefusal(s.inv.outbox, i, id) ::
               Done(t, Placements, Inventory, i) ==> Done(s, Placements, Inventory, i)
    requires forall j: nat :: Done(t, Inventory, Placements, j) ==> Done(s, Inventory, Placements, j)
    ensures Tracked(t, id)
  {
    assert Tracked(s, id);
    hide ReceiptPending, AnswerPending;
    if Homeless(t.inv, id) {
      if id !in s.place.jobs {
        if !e.GoodsReceived? { ReceiptStays(s, t, id); }
      } else {
        assert JobTrue(s, id);
        if e.GoodsReceived? && s.place.jobs[id].status == P.Assigned { AnswerStays(s, t, id); }
      }
    }
  }

  lemma JobsAfterNews(s: Sys, ref: Ref, t: Sys)
    requires JobsOk(s) && PlacedOnce(s.inv) && Typed(s) && StockOk(s.inv) && ref.index < |Log(s, ref.source)|
    requires !MustWait(s, Log(s, ref.source)[ref.index])
    requires t == s.(place := P.Handle(s.place, s.now, Log(s, ref.source)[ref.index]),
              done := s.done + {Mark(Placements, ref)})
    ensures JobsOk(t)
  {
    var e := Log(s, ref.source)[ref.index];
    AgreementKept.TypedOne(s, ref.source, e);
    GrowsReflexive(s.inv);
    JobsTrueAfterNews(s, e, t);
    hide P.Handle, StockOk, Grows, Typed, PlacedOnce, ReceiptPending, AnswerPending, ViewTrue, JobTrue;
    forall id | id in t.inv.lots
      ensures Tracked(t, id)
    {
      assert Tracked(s, id);
      if Subject(e) == Some(id) { SubjectTracked(s, id, e, t); } else { OtherLotTracked(s, id, t); }
    }
  }

  lemma JobsTrueAfterNews(s: Sys, e: Event, t: Sys)
    requires JobsOk(s) && PlacedOnce(s.inv) && !MustWait(s, e) && (Subject(e).Some? ==> e in s.inv.outbox)
    requires t.inv == s.inv && t.reading == s.reading && t.place == P.Handle(s.place, s.now, e)
    ensures forall id | id in t.place.jobs :: JobTrue(t, id)
    ensures forall id | id in t.reading :: ViewTrue(t, id)
  {
    forall id | id in t.place.jobs
      ensures JobTrue(t, id)
    {
      assert id in s.place.jobs ==> JobTrue(s, id);
    }
    forall id | id in t.reading
      ensures ViewTrue(t, id)
    {
      assert ViewTrue(s, id) && Subject(e) != Some(id);
    }
  }

  // ----- the placement service assigns -----

  lemma JobsAfterBegin(s: Sys, id: Uuid, t: Sys)
    requires JobsOk(s) && P.Due(s.place, s.now, id) && id in s.inv.lots
    requires t == s.(reading := s.reading[id := P.LotView(s.inv.lots[id].quantity, s.inv.lots[id].location)])
    ensures JobsOk(t)
  {
    hide ReceiptPending, AnswerPending;
    forall x | x in t.inv.lots ensures Tracked(t, x) { assert Tracked(s, x); ReadingIrrelevant(s, t, x); }
    forall x | x in t.place.jobs ensures JobTrue(t, x) { assert JobTrue(s, x); }
    forall x | x in t.reading ensures ViewTrue(t, x) { if x != id { assert ViewTrue(s, x); } }
  }

  lemma ReadingIrrelevant(s: Sys, t: Sys, id: Uuid)
    requires t == s.(reading := t.reading)
    ensures Tracked(s, id) <==> Tracked(t, id)
  {
  }

  lemma JobsAfterAbort(s: Sys, id: Uuid, t: Sys)
    requires JobsOk(s) && t == s.(reading := s.reading - {id})
    ensures JobsOk(t)
  {
    hide ReceiptPending, AnswerPending;
    forall x | x in t.inv.lots ensures Tracked(t, x) { assert Tracked(s, x); ReadingIrrelevant(s, t, x); }
    forall x | x in t.place.jobs ensures JobTrue(t, x) { assert JobTrue(s, x); }
    forall x | x in t.reading ensures ViewTrue(t, x) { assert ViewTrue(s, x); }
  }

  /** What assigning does to the job it is about. */
  lemma AssignIs(st: P.Store, now: Time, id: Uuid, view: P.LotView, locations: Reply<seq<P.Candidate>>)
    requires id in st.jobs && P.Assign(st, now, id, Found(view), locations).Ok?
    ensures var after := P.Assign(st, now, id, Found(view), locations).value;
            && after.jobs.Keys == st.jobs.Keys
            && (forall x | x in st.jobs && x != id :: after.jobs[x] == st.jobs[x])
            && st.outbox <= after.outbox
            && (|| (after.jobs[id].status == P.JobCancelled && view.quantity == 0)
                || (after.jobs[id].status == P.Placed && view.location.Some?)
                || (after.jobs[id].status == st.jobs[id].status)
                || (after.jobs[id].status == P.Assigned && IsAssignment(after.outbox, |st.outbox|, id)))
  {
    hide P.Choose;
  }

  lemma JobsAfterFinish(s: Sys, id: Uuid, locations: Reply<seq<P.Candidate>>, t: Sys)
    requires JobsOk(s) && MarksReal(s) && StockOk(s.inv) && id in s.reading && id in s.place.jobs
    requires var o := P.Assign(s.place, s.now, id, Found(s.reading[id]), locations);
             o.Ok? && t == s.(reading := s.reading - {id}, place := o.value)
    ensures JobsOk(t)
  {
    hide P.Assign, StockOk, Grows, ReceiptPending;
    assert ViewTrue(s, id);
    AssignIs(s.place, s.now, id, s.reading[id], locations);
    GrowsReflexive(s.inv);
    forall x | x in t.inv.lots
      ensures Tracked(t, x)
    {
      assert Tracked(s, x);
      if x == id {
        assert !Done(s, Inventory, Placements, |s.place.outbox|);
      } else {
        OtherLotTracked(s, x, t);
      }
    }
    forall x | x in t.place.jobs ensures JobTrue(t, x) { assert JobTrue(s, x); }
    forall x | x in t.reading ensures ViewTrue(t, x) { assert ViewTrue(s, x); }
  }
}
