/** The inbox: a consumer commits its marker together with the effects of an event, so
    any delivery sequence with repetitions and failed attempts is worth the first
    successful delivery of every event, once. */
module Inbox {
  import opened Domain

  /** One delivery; `commits` is false when the database loses the transaction at its end. */
  datatype Delivery<E> = Delivery(id: Uuid, event: E, commits: bool)

  datatype Consumer<S> = Consumer(state: S, processed: set<Uuid>)

  /** The marker is inserted first; when it is already there nothing else happens. */
  function Process<S, E>(handle: (S, E) -> Outcome<S>, c: Consumer<S>, d: Delivery<E>): Outcome<Consumer<S>> {
    if d.id in c.processed then (if d.commits then Ok(c) else Err(Broken(Unreachable)))
    else
      var state :- handle(c.state, d.event);
      if d.commits then Ok(Consumer(state, c.processed + {d.id})) else Err(Broken(Unreachable))
  }

  function After<S, E>(handle: (S, E) -> Outcome<S>, c: Consumer<S>, d: Delivery<E>): Consumer<S> {
    match Process(handle, c, d)
    case Ok(c1) => c1
    case Err(_) => c
  }

  function Final<S, E>(handle: (S, E) -> Outcome<S>, c: Consumer<S>, ds: seq<Delivery<E>>): Consumer<S>
    decreases |ds|
  {
    if ds == [] then c else Final(handle, After(handle, c, ds[0]), ds[1..])
  }

  predicate Lands<S, E>(handle: (S, E) -> Outcome<S>, c: Consumer<S>, d: Delivery<E>) {
    d.id !in c.processed && d.commits && handle(c.state, d.event).Ok?
  }

  /** The deliveries of a run that are the first successful one of their event. */
  function Landed<S, E>(handle: (S, E) -> Outcome<S>, c: Consumer<S>, ds: seq<Delivery<E>>): seq<Delivery<E>>
    decreases |ds|
  {
    if ds == [] then []
    else
      (if Lands(handle, c, ds[0]) then [ds[0]] else []) + Landed(handle, After(handle, c, ds[0]), ds[1..])
  }

  /** The handler run over events with no inbox, no repetition and no failure. */
  function Plainly<S, E>(handle: (S, E) -> Outcome<S>, state: S, ds: seq<Delivery<E>>): Outcome<S>
    decreases |ds|
  {
    if ds == [] then Ok(state)
    else
      var next :- handle(state, ds[0].event);
      Plainly(handle, next, ds[1..])
  }

  ghost predicate Distinct<E>(ds: seq<Delivery<E>>) {
    forall i, k | 0 <= i < k < |ds| :: ds[i].id != ds[k].id
  }

  /** `done` is `ds` with some deliveries left out. */
  predicate Subsequence<E(==)>(done: seq<Delivery<E>>, ds: seq<Delivery<E>>)
    decreases |ds|
  {
    if done == [] then true
    else if ds == [] then false
    else if done[0] == ds[0] && Subsequence(done[1..], ds[1..]) then true
    else Subsequence(done, ds[1..])
  }

  lemma {:induction false} LandedAreNew<S, E>(handle: (S, E) -> Outcome<S>, c: Consumer<S>, ds: seq<Delivery<E>>)
    ensures forall d | d in Landed(handle, c, ds) :: d.id !in c.processed
    decreases |ds|
  {
    if ds != [] {
      LandedAreNew(handle, After(handle, c, ds[0]), ds[1..]);
    }
  }

  lemma OneDelivery<S, E>(handle: (S, E) -> Outcome<S>, c: Consumer<S>, d: Delivery<E>)
    ensures if Lands(handle, c, d) then After(handle, c, d)
              == Consumer(handle(c.state, d.event).value, c.processed + {d.id})
            else After(handle, c, d) == c
  {
  }

  /** Any delivery sequence ends in the state of the plain handler run over the first
      successful delivery of each event: every event at most once, in the order in which
      they first succeeded, and the inbox holds exactly their markers. */
  lemma {:induction false} RedeliveryRefines<S, E>(handle: (S, E) -> Outcome<S>, c: Consumer<S>, ds: seq<Delivery<E>>)
    ensures var done := Landed(handle, c, ds);
            && Plainly(handle, c.state, done) == Ok(Final(handle, c, ds).state)
            && Distinct(done) && Subsequence(done, ds)
            && Final(handle, c, ds).processed == c.processed + (set d | d in done :: d.id)
    decreases |ds|
  {
    if ds != [] {
      hide Process, After;
      var next := After(handle, c, ds[0]);
      OneDelivery(handle, c, ds[0]);
      RedeliveryRefines(handle, next, ds[1..]);
      LandedAreNew(handle, next, ds[1..]);
      var rest := Landed(handle, next, ds[1..]);
      if Lands(handle, c, ds[0]) {
        LandingFirst(handle, c, ds[0], rest, next);
      } else {
        assert Landed(handle, c, ds) == rest && next == c;
        SubsequenceSkips(rest, ds);
      }
    }
  }

  /** A delivery that lands, followed by those that land after it. */
  lemma LandingFirst<S, E>(handle: (S, E) -> Outcome<S>, c: Consumer<S>, d: Delivery<E>, rest: seq<Delivery<E>>,
                           next: Consumer<S>)
    requires Lands(handle, c, d) && next == Consumer(handle(c.state, d.event).value, c.processed + {d.id})
    requires Distinct(rest) && forall x | x in rest :: x.id !in next.processed
    ensures var done := [d] + rest;
            && done[1..] == rest && Distinct(done)
            && Plainly(handle, c.state, done) == Plainly(handle, next.state, rest)
            && next.processed + (set x | x in rest :: x.id) == c.processed + (set x | x in done :: x.id)
  {
    var done := [d] + rest;
    assert done[1..] == rest;
    forall k | 1 <= k < |done|
      ensures done[k].id != done[0].id
    {
      assert done[k] == rest[k - 1] && rest[k - 1] in rest;
    }
    assert (set x | x in done :: x.id) == {d.id} + (set x | x in rest :: x.id) by {
      forall x | x in rest ensures x in done {}
    }
  }

  lemma SubsequenceSkips<E>(done: seq<Delivery<E>>, ds: seq<Delivery<E>>)
    requires ds != [] && Subsequence(done, ds[1..])
    ensures Subsequence(done, ds)
  {
  }
}
