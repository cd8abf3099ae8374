/** The messaging runtime as it works: the publishing loop over the outbox and the
    retry loop around the inbox. */
module Messaging {
  import opened Domain
  import Relay
  import Inbox

  // ----- the outbox -----

  ghost predicate FiftyOrAll(s: Relay.State, batch: seq<Relay.Row>) {
    |batch| <= 50 && (|batch| < 50 ==> forall x | x in s.committed :: x.sequence in s.published || x in batch)
  }

  /** A pass over selected rows that sends some of them, and all when it succeeds. */
  ghost predicate IsPass(before: Relay.State, after: Relay.State, ok: bool) {
    exists batch, sent: nat, completes ::
      Relay.Selects(before, batch) && sent <= |batch|
      && after == Relay.Next(before, Relay.Publish(batch, sent, completes))
      && (ok ==> sent == |batch| && completes)
  }

  class Outbox {
    var next: nat
    var open: map<Uuid, seq<Relay.Row>>
    var committed: seq<Relay.Row>
    var published: set<nat>
    var log: seq<Relay.Row>

    function State(): Relay.State
      reads this
    {
      Relay.State(next, open, committed, published, log)
    }

    constructor ()
      ensures State() == Relay.START && Relay.Good(State())
    {
      next, open, committed, published, log := 0, map[], [], {}, [];
      new;
      Relay.StartIsGood();
    }

    /** A warehouse transaction starts, inserts a row, and commits or rolls back. */
    method Lock(w: Uuid) returns (granted: bool)
      modifies this`open
      ensures State() == Relay.Next(old(State()), Relay.Lock(w)) && granted == (w !in old(open))
    {
      granted := w !in open;
      if granted {
        open := open[w := []];
      }
    }

    method Insert(w: Uuid)
      requires w in open
      modifies this`open, this`next
      ensures State() == Relay.Next(old(State()), Relay.Insert(w))
    {
      open := open[w := open[w] + [Relay.Row(next, w)]];
      next := next + 1;
    }

    method Commit(w: Uuid)
      requires w in open
      modifies this`open, this`committed
      ensures State() == Relay.Next(old(State()), Relay.Commit(w))
    {
      committed := committed + open[w];
      open := open - {w};
    }

    method Rollback(w: Uuid)
      modifies this`open
      ensures State() == Relay.Next(old(State()), Relay.Rollback(w))
    {
      open := open - {w};
    }

    /** `where published_at is null order by sequence limit 50` */
    method Select() returns (batch: seq<Relay.Row>)
      requires Relay.Good(State())
      ensures Relay.Selects(State(), batch)
      ensures FiftyOrAll(State(), batch)
    {
      var rest := set x | x in committed && x.sequence !in published;
      batch := [];
      while rest != {} && |batch| < Relay.BATCH
        invariant forall x | x in rest :: Relay.Pending(State(), x)
        invariant forall x | x in batch :: Relay.Pending(State(), x) && x !in rest
        invariant forall x | Relay.Pending(State(), x) :: x in rest || x in batch
        invariant forall x, y | x in rest && y in batch :: y.sequence < x.sequence
        invariant forall i, j | 0 <= i < j < |batch| :: batch[i].sequence < batch[j].sequence
        invariant |batch| <= Relay.BATCH
        decreases rest
      {
        var x := Oldest(rest);
        rest := rest - {x};
        batch := batch + [x];
      }
    }

    method Oldest(rest: set<Relay.Row>) returns (oldest: Relay.Row)
      requires rest != {} && Relay.Good(State())
      requires forall x | x in rest :: Relay.Pending(State(), x)
      ensures oldest in rest && forall x | x in rest && x != oldest :: oldest.sequence < x.sequence
    {
      oldest :| oldest in rest;
      var todo := rest - {oldest};
      while todo != {}
        invariant todo <= rest && oldest in rest && oldest !in todo
        invariant forall x | x in rest && x !in todo && x != oldest :: oldest.sequence < x.sequence
        decreases todo
      {
        var y :| y in todo;
        todo := todo - {y};
        if y.sequence < oldest.sequence {
          oldest := y;
        }
      }
    }

    /** One pass: every selected row is sent and marked in turn; the first failing send, or
        a failing commit, takes the marks back but not the messages. `answers` tells what
        the broker does with each send, `commits` what the database does at the end. A send
        may be reported as failed although the broker has stored the message. */
    method Publish(answers: seq<Answer>, commits: bool) returns (ok: bool)
      requires Relay.Good(State())
      modifies this`published, this`log
      ensures Relay.Good(State())
      ensures IsPass(old(State()), State(), ok)
    {
      hide Relay.Good, Relay.Selects, Relay.Next, Relay.Sequences, FiftyOrAll, IsPass;
      var batch := Select();
      var marks := published;
      ghost var before := State();
      NoSequences(batch);
      for i := 0 to |batch|
        invariant log == before.log + batch[..i] && published == before.published + Relay.Sequences(batch[..i])
      {
        SequencesAppend(batch, i);
        assert batch[..i + 1] == batch[..i] + [batch[i]];
        var answer := if i < |answers| then answers[i] else Lost;
        if answer != Lost {
          log := log + [batch[i]];
        }
        if answer != Stored {
          published := marks;
          ok := false;
          ghost var sent := if answer == Lost then i else i + 1;
          PassStops(before, batch, sent);
          assert State() == before.(log := before.log + batch[..sent]);
          return;
        }
        published := published + {batch[i].sequence};
      }
      assert batch[..|batch|] == batch;
      ok := commits;
      if !commits {
        published := marks;
      }
      PassStops(before, batch, |batch|);
      PassEnds(before, batch);
    }
  }

  lemma NoSequences(batch: seq<Relay.Row>)
    ensures Relay.Sequences(batch[..0]) == {}
  {
  }

  lemma SequencesAppend(batch: seq<Relay.Row>, i: nat)
    requires i < |batch|
    ensures Relay.Sequences(batch[..i + 1]) == Relay.Sequences(batch[..i]) + {batch[i].sequence}
  {
    assert batch[..i + 1] == batch[..i] + [batch[i]];
  }

  lemma PassStops(before: Relay.State, batch: seq<Relay.Row>, sent: nat)
    requires Relay.Good(before) && Relay.Selects(before, batch) && sent <= |batch|
    ensures var after := before.(log := before.log + batch[..sent]);
            IsPass(before, after, false) && Relay.Good(after)
  {
    hide Relay.Good, Relay.Selects;
    Relay.NextKeeps(before, Relay.Publish(batch, sent, false));
    assert before.(log := before.log + batch[..sent]) == Relay.Next(before, Relay.Publish(batch, sent, false));
  }

  lemma PassEnds(before: Relay.State, batch: seq<Relay.Row>)
    requires Relay.Good(before) && Relay.Selects(before, batch)
    ensures var after := before.(log := before.log + batch, published := before.published + Relay.Sequences(batch));
            IsPass(before, after, true) && Relay.Good(after)
  {
    hide Relay.Good, Relay.Selects;
    Relay.NextKeeps(before, Relay.Publish(batch, |batch|, true));
    assert before.(log := before.log + batch, published := before.published + Relay.Sequences(batch))
        == Relay.Next(before, Relay.Publish(batch, |batch|, true));
  }

  /** `Hidden`: the broker has the message but the send is reported as failed. */
  datatype Answer = Stored | Hidden | Lost

  // ----- the inbox -----

  /** After how many failures a message may go to the dead-letter topic. */
  const ATTEMPTS := 5

  datatype Fate = Processed | DeadLettered | Interrupted

  class Subscriber<S, E> {
    var state: S
    var processed: set<Uuid>
    const handle: (S, E) -> Outcome<S>

    function Consumer(): Inbox.Consumer<S>
      reads this
    {
      Inbox.Consumer(state, processed)
    }

    constructor (start: S, handle: (S, E) -> Outcome<S>)
      ensures Consumer() == Inbox.Consumer(start, {}) && this.handle == handle
    {
      state, processed, this.handle := start, {}, handle;
    }

    /** The marker and the effects are committed together or not at all. */
    method Process(d: Inbox.Delivery<E>) returns (o: Outcome<()>)
      modifies this
      ensures Consumer() == Inbox.After(handle, old(Consumer()), d)
      ensures o.Ok? <==> Inbox.Process(handle, old(Consumer()), d).Ok?
      ensures o.Ok? ==> d.id in processed
    {
      var beginning := (state, processed);
      var unseen := d.id !in processed;
      processed := processed + {d.id};
      if unseen {
        var done := handle(state, d.event);
        if done.Err? {
          state, processed := beginning.0, beginning.1;
          return Err(done.error);
        }
        state := done.value;
      } else {
        assert processed == beginning.1;
      }
      if !d.commits {
        state, processed := beginning.0, beginning.1;
        return Err(Broken(Unreachable));
      }
      o := Ok(());
    }

    /** One message: attempts are repeated until one succeeds; from the fifth failure on the
        message may be dead-lettered instead; `tries` says for each attempt whether its
        transaction commits and whether the dead-letter topic would take the message, and
        ends when the service is stopped. */
    method Consume(id: Uuid, event: E, tries: seq<(bool, bool)>) returns (fate: Fate, ghost attempts: nat)
      modifies this
      ensures attempts <= |tries|
      ensures Consumer() == Inbox.Final(handle, old(Consumer()), Attempts(id, event, tries[..attempts]))
      ensures fate == Processed ==> id in processed
      ensures fate != Processed ==> Consumer() == old(Consumer())
      ensures fate == DeadLettered ==> attempts >= 5
      ensures fate == Interrupted ==> attempts == |tries|
    {
      attempts := 0;
      var attempt := 0;
      while attempt < |tries|
        invariant attempts == attempt <= |tries|
        invariant Consumer() == Inbox.Final(handle, old(Consumer()), Attempts(id, event, tries[..attempt]))
        invariant Consumer() == old(Consumer())
      {
        var d := Inbox.Delivery(id, event, tries[attempt].0);
        AttemptsAppend(handle, old(Consumer()), id, event, tries, attempt);
        attempts := attempt + 1;
        var o := Process(d);
        if o.Ok? {
          return Processed, attempts;
        }
        if attempt >= ATTEMPTS - 1 && tries[attempt].1 {
          return DeadLettered, attempts;
        }
        attempt := attempt + 1;
      }
      fate := Interrupted;
    }
  }

  /** The deliveries that the attempts at one message amount to. */
  function Attempts<E>(id: Uuid, event: E, tries: seq<(bool, bool)>): seq<Inbox.Delivery<E>> {
    seq(|tries|, i requires 0 <= i < |tries| => Inbox.Delivery(id, event, tries[i].0))
  }

  lemma {:induction false} FinalAppends<S, E>(handle: (S, E) -> Outcome<S>, c: Inbox.Consumer<S>,
                                              ds: seq<Inbox.Delivery<E>>, d: Inbox.Delivery<E>)
    ensures Inbox.Final(handle, c, ds + [d]) == Inbox.After(handle, Inbox.Final(handle, c, ds), d)
    decreases |ds|
  {
    if ds == [] {
      assert ds + [d] == [d];
    } else {
      assert (ds + [d])[1..] == ds[1..] + [d];
      FinalAppends(handle, Inbox.After(handle, c, ds[0]), ds[1..], d);
    }
  }

  lemma AttemptsAppend<S, E>(handle: (S, E) -> Outcome<S>, c: Inbox.Consumer<S>, id: Uuid, event: E,
                             tries: seq<(bool, bool)>, k: nat)
    requires k < |tries|
    ensures Inbox.Final(handle, c, Attempts(id, event, tries[..k + 1]))
         == Inbox.After(handle, Inbox.Final(handle, c, Attempts(id, event, tries[..k])),
             Inbox.Delivery(id, event, tries[k].0))
  {
    var ds, d := Attempts(id, event, tries[..k]), Inbox.Delivery(id, event, tries[k].0);
    assert Attempts(id, event, tries[..k + 1]) == ds + [d];
    FinalAppends(handle, c, ds, d);
  }
}
