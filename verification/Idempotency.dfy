/** Idempotency keys of HTTP commands: over any sequence of requests, retries and failed
    commits, the effects for a key commit at most once and every successful call with
    that key gets the first committed response. */
module Idempotency {
  import opened Domain

  /** The Go and the Java runtime accept slightly different keys. */
  datatype Platform = Go | Java

  /** A remembered command: the request body stands for its fingerprint. */
  datatype Saved<R> = Saved(request: nat, response: R)

  datatype Store<S, R> = Store(state: S, saved: map<string, Saved<R>>)

  /** A call; `commits` is false when the database loses the transaction at its end. */
  datatype Call<!S, R> = Call(key: string, body: nat, action: S -> Outcome<(S, R)>, commits: bool)

  predicate Accepts(p: Platform, key: string) {
    0 < |key| <= 128 && (p == Java ==> exists c | c in key :: c != ' ')
  }

  /** What the caller of a lost transaction sees. */
  function Lost<R>(): Outcome<R> {
    Err(Broken(Unreachable))
  }

  function Execute<S, R>(p: Platform, st: Store<S, R>, c: Call<S, R>): (Store<S, R>, Outcome<R>) {
    if !Accepts(p, c.key) then (st, Err(Fault(ValidationError, 400)))
    else if c.key in st.saved then
      if st.saved[c.key].request != c.body then (st, Err(Fail(IdempotencyConflict)))
      else (st, if c.commits then Ok(st.saved[c.key].response) else Lost())
    else
      match c.action(st.state)
      case Err(e) => (st, Err(e))
      case Ok(done) =>
        if c.commits then (Store(done.0, st.saved[c.key := Saved(c.body, done.1)]), Ok(done.1)) else (st, Lost())
  }

  /** Which calls are refused, and which take effect. */
  lemma CallDecides<S, R>(p: Platform, st: Store<S, R>, c: Call<S, R>)
    ensures var legal := 1 <= |c.key| <= 128 && !(p == Java && forall x | x in c.key :: x == ' ');
            var (after, answer) := Execute(p, st, c);
            && (!legal ==> answer == Err(Fault(ValidationError, 400)))
            && (legal && c.key in st.saved && st.saved[c.key].request != c.body ==>
                  answer == Err(Fault(IdempotencyConflict, 409)))
            && (after != st <==> legal && c.key !in st.saved && c.commits && c.action(st.state).Ok?)
            && (after != st ==>
                  && after.state == c.action(st.state).value.0 && answer == Ok(c.action(st.state).value.1)
                  && after.saved == st.saved[c.key := Saved(c.body, c.action(st.state).value.1)])
  {
    assert Accepts(p, c.key) <==> 1 <= |c.key| <= 128 && !(p == Java && forall x | x in c.key :: x == ' ');
    if TakesEffect(p, st, c) {
      assert c.key in Execute(p, st, c).0.saved;
    }
  }

  function Final<S, R>(p: Platform, st: Store<S, R>, calls: seq<Call<S, R>>): Store<S, R>
    decreases |calls|
  {
    if calls == [] then st else Final(p, Execute(p, st, calls[0]).0, calls[1..])
  }

  /** The answer to the call after `before` has been processed. */
  function Answer<S, R>(p: Platform, st: Store<S, R>, before: seq<Call<S, R>>, c: Call<S, R>): Outcome<R> {
    Execute(p, Final(p, st, before), c).1
  }

  /** The call runs its action and commits. */
  predicate TakesEffect<S, R>(p: Platform, st: Store<S, R>, c: Call<S, R>) {
    Accepts(p, c.key) && c.key !in st.saved && c.commits && c.action(st.state).Ok?
  }

  /** The calls of a run that take effect, in order. */
  function Effective<S, R>(p: Platform, st: Store<S, R>, calls: seq<Call<S, R>>): seq<Call<S, R>>
    decreases |calls|
  {
    if calls == [] then []
    else
      (if TakesEffect(p, st, calls[0]) then [calls[0]] else [])
      + Effective(p, Execute(p, st, calls[0]).0, calls[1..])
  }

  /** Running actions with no keys at all. */
  function Plainly<S, R>(state: S, calls: seq<Call<S, R>>): Outcome<S>
    decreases |calls|
  {
    if calls == [] then Ok(state)
    else
      var done :- calls[0].action(state);
      Plainly(done.0, calls[1..])
  }

  // ----- remembered responses are never replaced -----

  ghost predicate Remembers<S, R>(st: Store<S, R>, key: string, saved: Saved<R>) {
    key in st.saved && st.saved[key] == saved
  }

  lemma {:induction false} SavedForEver<S, R>(p: Platform, st: Store<S, R>, calls: seq<Call<S, R>>, key: string,
                                              saved: Saved<R>)
    requires Remembers(st, key, saved)
    ensures Remembers(Final(p, st, calls), key, saved)
    decreases |calls|
  {
    if calls != [] {
      SavedForEver(p, Execute(p, st, calls[0]).0, calls[1..], key, saved);
    }
  }

  lemma {:induction false} FinalAppends<S, R>(p: Platform, st: Store<S, R>, a: seq<Call<S, R>>, b: seq<Call<S, R>>)
    ensures Final(p, st, a + b) == Final(p, Final(p, st, a), b)
    decreases |a|
  {
    if a == [] {
      assert a + b == b;
    } else {
      assert (a + b)[1..] == a[1..] + b;
      FinalAppends(p, Execute(p, st, a[0]).0, a[1..], b);
    }
  }

  lemma OneMore<S, R>(p: Platform, st: Store<S, R>, before: seq<Call<S, R>>, c: Call<S, R>)
    ensures Final(p, st, before + [c]) == Execute(p, Final(p, st, before), c).0
  {
    FinalAppends(p, st, before, [c]);
    assert Final(p, Final(p, st, before), [c]) == Execute(p, Final(p, st, before), c).0;
  }

  /** After a success with a key, every later call with that key either repeats the body
      and gets the same response, or is lost, or has another body and is refused; in
      none of these cases does anything change. */
  lemma FirstResponseForEver<S, R>(p: Platform, st: Store<S, R>, before: seq<Call<S, R>>, first: Call<S, R>,
                                   between: seq<Call<S, R>>, later: Call<S, R>)
    requires Answer(p, st, before, first).Ok? && later.key == first.key
    ensures var seen := before + [first] + between;
            && Execute(p, Final(p, st, seen), later).0 == Final(p, st, seen)
            && Answer(p, st, seen, later) ==
                 (if later.body != first.body then Err(Fail(IdempotencyConflict))
                  else if !later.commits then Lost()
                  else Answer(p, st, before, first))
  {
    var response := Answer(p, st, before, first).value;
    OneMore(p, st, before, first);
    FinalAppends(p, st, before + [first], between);
    SavedForEver(p, Final(p, st, before + [first]), between, first.key, Saved(first.body, response));
    hide Final;
  }

  // ----- effects commit at most once -----

  lemma {:induction false} EffectiveAreNew<S, R>(p: Platform, st: Store<S, R>, calls: seq<Call<S, R>>)
    ensures forall c | c in Effective(p, st, calls) :: c.key !in st.saved
    decreases |calls|
  {
    if calls != [] {
      EffectiveAreNew(p, Execute(p, st, calls[0]).0, calls[1..]);
    }
  }

  lemma EffectOf<S, R>(p: Platform, st: Store<S, R>, c: Call<S, R>)
    ensures var next := Execute(p, st, c).0;
            if TakesEffect(p, st, c) then
              next.state == c.action(st.state).value.0 && next.saved.Keys == st.saved.Keys + {c.key}
            else next == st
  {
  }

  lemma OneMoreKey<S, R>(first: Call<S, R>, rest: seq<Call<S, R>>)
    requires forall i, k | 0 <= i < k < |rest| :: rest[i].key != rest[k].key
    requires forall c | c in rest :: c.key != first.key
    ensures var all := [first] + rest;
            && (forall i, k | 0 <= i < k < |all| :: all[i].key != all[k].key)
            && all[0].key == first.key && forall i | 0 <= i < |rest| :: rest[i].key == all[i + 1].key
  {
  }

  /** Any run is worth exactly its effective calls run once each without keys: no key
      takes effect twice, and their responses are the remembered ones. */
  lemma {:induction false} RunsAreItsEffects<S, R>(p: Platform, st: Store<S, R>, calls: seq<Call<S, R>>)
    ensures var done := Effective(p, st, calls);
            && Plainly(st.state, done) == Ok(Final(p, st, calls).state)
            && (forall i, k | 0 <= i < k < |done| :: done[i].key != done[k].key)
            && (forall key | key in Final(p, st, calls).saved ::
                  key in st.saved || exists i | 0 <= i < |done| :: done[i].key == key)
    decreases |calls|
  {
    if calls != [] {
      hide Execute, Accepts;
      var c, next := calls[0], Execute(p, st, calls[0]).0;
      EffectOf(p, st, c);
      RunsAreItsEffects(p, next, calls[1..]);
      EffectiveAreNew(p, next, calls[1..]);
      var done, rest := Effective(p, st, calls), Effective(p, next, calls[1..]);
      if TakesEffect(p, st, c) {
        assert c.action(st.state).Ok?;
        hide TakesEffect, Effective;
        assert done == [c] + rest && done[1..] == rest;
        assert c.key in next.saved;
        OneMoreKey(c, rest);
      } else {
        assert done == rest && next == st;
      }
    }
  }
}
