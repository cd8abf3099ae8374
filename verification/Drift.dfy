/** The capacity ledger when arithmetic rounds: an error budget for the ledger row of
    one location. The row may drift from the true load by at most one error per committed
    update, and it is refused as broken exactly when the budget allows it. */
module Drift {
  import opened Domain
  import opened InventoryRules

  /** An update of the row: the exact change of the load and the rounding errors made
      while it is added; `limit` is present when the load grows. */
  datatype Update = Update(change: Load, rounding: Load, limit: Option<Load>)

  /** The row, the load that is really there and the number of committed updates. */
  datatype Row = Row(row: Load, truth: Load, updates: nat)

  const CLEAN := Row(NO_LOAD, NO_LOAD, 0)

  /** A refused or broken update is rolled back. */
  function Step(s: Row, u: Update): Outcome<Row> {
    var row :- Settle(s.row, Plus(u.change, u.rounding), u.limit);
    Ok(Row(row, Plus(s.truth, u.change), s.updates + 1))
  }

  function After(s: Row, u: Update): Row {
    match Step(s, u)
    case Ok(s1) => s1
    case Err(_) => s
  }

  function Run(s: Row, us: seq<Update>): Row
    decreases |us|
  {
    if us == [] then s else Run(After(s, us[0]), us[1..])
  }

  // ----- the budget -----

  function Abs(x: real): real {
    if x < 0.0 then -x else x
  }

  predicate Within(a: Load, b: Load, error: real) {
    Abs(a.weight - b.weight) <= error && Abs(a.volume - b.volume) <= error
  }

  predicate NotNegative(a: Load) {
    a.weight >= 0.0 && a.volume >= 0.0
  }

  /** What lots and locations guarantee about an update: the load that is really there is
      never negative, a growing load is held against the limit of the location and a
      shrinking one is not. */
  predicate Real(s: Row, u: Update, limit: Load, d: real) {
    && Within(u.rounding, NO_LOAD, d)
    && NotNegative(Plus(s.truth, u.change))
    && (if u.limit.Some? then u.limit.value == limit else u.change.weight <= 0.0 && u.change.volume <= 0.0)
  }

  predicate RealRun(s: Row, us: seq<Update>, limit: Load, d: real)
    decreases |us|
  {
    us == [] || (Real(s, us[0], limit, d) && RealRun(After(s, us[0]), us[1..], limit, d))
  }

  /** The error allowed after `n` updates. */
  function Budget(n: nat, d: real): real {
    n as real * d
  }

  lemma BudgetGrows(n: nat, d: real)
    ensures Budget(0, d) == 0.0 && Budget(n + 1, d) == Budget(n, d) + d
  {
    assert (n + 1) as real == n as real + 1.0;
  }

  predicate Bounded(s: Row, limit: Load, d: real) {
    && NotNegative(s.row) && NotNegative(s.truth)
    && Within(s.row, s.truth, Budget(s.updates, d))
    && s.truth.weight <= limit.weight + TOLERANCE + Budget(s.updates, d)
    && s.truth.volume <= limit.volume + TOLERANCE + Budget(s.updates, d)
  }

  /** Clamping at zero brings the row no further away from a load that is not negative. */
  lemma ClampHelps(x: real, truth: real)
    requires truth >= 0.0
    ensures Abs(AtLeastZero(x) - truth) <= Abs(x - truth)
  {
  }

  /** One more error: the sum before the clamp is within the grown budget. */
  lemma OneMoreError(s: Row, u: Update, limit: Load, d: real)
    requires Bounded(s, limit, d) && Real(s, u, limit, d)
    ensures var sum := Plus(s.row, Plus(u.change, u.rounding));
            Within(sum, Plus(s.truth, u.change), Budget(s.updates + 1, d))
  {
    BudgetGrows(s.updates, d);
    hide Budget;
  }

  lemma StepBounded(s: Row, u: Update, limit: Load, d: real)
    requires d >= 0.0 && Bounded(s, limit, d) && Real(s, u, limit, d)
    ensures Bounded(After(s, u), limit, d)
    ensures Budget(s.updates + 1, d) <= SLACK && Step(s, u).Err? ==> Step(s, u).error == Fail(LocationFull)
  {
    OneMoreError(s, u, limit, d);
    BudgetGrows(s.updates, d);
    hide Budget;
    var sum := Plus(s.row, Plus(u.change, u.rounding));
    var truth := Plus(s.truth, u.change);
    ClampHelps(sum.weight, truth.weight);
    ClampHelps(sum.volume, truth.volume);
  }

  /** After any run the row is within one error per committed update of the true load, and
      the true load is at most that far above the limit. */
  lemma {:induction false} DriftIsBounded(s: Row, us: seq<Update>, limit: Load, d: real)
    requires d >= 0.0 && Bounded(s, limit, d) && RealRun(s, us, limit, d)
    ensures Bounded(Run(s, us), limit, d)
    decreases |us|
  {
    if us != [] {
      hide Bounded, Real, After;
      StepBounded(s, us[0], limit, d);
      DriftIsBounded(After(s, us[0]), us[1..], limit, d);
    }
  }

  /** A whole run from the first row of a location. */
  lemma DriftOfRow(us: seq<Update>, limit: Load, d: real)
    requires d >= 0.0 && NotNegative(limit) && RealRun(CLEAN, us, limit, d)
    ensures Bounded(Run(CLEAN, us), limit, d)
  {
    BudgetGrows(0, d);
    hide Budget, RealRun, Run;
    DriftIsBounded(CLEAN, us, limit, d);
  }

  // ----- when the row is refused as broken -----

  predicate Breaks(s: Row, u: Update) {
    Step(s, u) == Err(Broken(CapacityViolated))
  }

  /** Some real run of `k - 1` committed updates is followed by a real update that breaks. */
  ghost predicate MayBreak(k: nat, limit: Load, d: real) {
    exists us, u :: BreaksAfter(us, u, k, limit, d)
  }

  ghost predicate BreaksAfter(us: seq<Update>, u: Update, k: nat, limit: Load, d: real) {
    && RealRun(CLEAN, us, limit, d) && Run(CLEAN, us).updates + 1 == k
    && Real(Run(CLEAN, us), u, limit, d) && Breaks(Run(CLEAN, us), u)
  }

  lemma NeverBreaksWithinBudget(us: seq<Update>, u: Update, k: nat, limit: Load, d: real)
    requires d >= 0.0 && NotNegative(limit) && Budget(k, d) <= SLACK
    ensures !BreaksAfter(us, u, k, limit, d)
  {
    hide Budget, RealRun, Run, Real, Bounded;
    if BreaksAfter(us, u, k, limit, d) {
      DriftOfRow(us, limit, d);
      StepBounded(Run(CLEAN, us), u, limit, d);
    }
  }

  /** The worst history: every unit that is put away is lost to rounding, and then everything
      is taken out at once, with one more loss. */
  function Lose(limit: Load, d: real): Update {
    Update(Load(d, 0.0), Load(-d, 0.0), Some(limit))
  }

  function Losses(n: nat, limit: Load, d: real): seq<Update> {
    if n == 0 then [] else [Lose(limit, d)] + Losses(n - 1, limit, d)
  }

  function TakeOut(n: nat, d: real): Update {
    Update(Load(-Budget(n, d), 0.0), Load(-d, 0.0), None)
  }

  /** The row after `n` losses: it shows nothing of what is there. */
  function Unseen(n: nat, d: real): Row {
    Row(NO_LOAD, Load(Budget(n, d), 0.0), n)
  }

  lemma BudgetNotNegative(n: nat, d: real)
    requires d >= 0.0
    ensures Budget(n, d) >= 0.0
  {
  }

  lemma LoseIsReal(n: nat, limit: Load, d: real)
    requires d >= 0.0
    ensures Real(Unseen(n, d), Lose(limit, d), limit, d)
  {
    hide Budget;
    BudgetNotNegative(n, d);
  }

  lemma NothingAdded()
    ensures Plus(NO_LOAD, NO_LOAD) == NO_LOAD
  {
  }

  lemma NothingExceeds(limit: Load)
    requires NotNegative(limit)
    ensures !Exceeds(NO_LOAD, limit)
  {
  }

  /** A loss shows as nothing. */
  lemma LossSettles(limit: Load)
    requires NotNegative(limit)
    ensures Settle(NO_LOAD, NO_LOAD, Some(limit)) == Ok(NO_LOAD)
  {
    hide Plus, Exceeds;
    NothingAdded();
    NothingExceeds(limit);
  }

  lemma LossCancels(limit: Load, d: real)
    ensures Plus(Lose(limit, d).change, Lose(limit, d).rounding) == NO_LOAD
  {
  }

  lemma LoseOne(n: nat, limit: Load, d: real)
    requires NotNegative(limit)
    ensures After(Unseen(n, d), Lose(limit, d)) == Unseen(n + 1, d)
  {
    hide Budget, Settle;
    BudgetGrows(n, d);
    LossCancels(limit, d);
    LossSettles(limit);
    assert Step(Unseen(n, d), Lose(limit, d))
        == Ok(Row(NO_LOAD, Plus(Unseen(n, d).truth, Lose(limit, d).change), n + 1));
  }

  lemma {:induction false} LoseSome(done: nat, n: nat, limit: Load, d: real)
    requires d >= 0.0 && NotNegative(limit)
    ensures RealRun(Unseen(done, d), Losses(n, limit, d), limit, d)
    ensures Run(Unseen(done, d), Losses(n, limit, d)) == Unseen(done + n, d)
    decreases n
  {
    hide Budget, Real, After, Unseen, Lose;
    if n > 0 {
      LoseIsReal(done, limit, d);
      LoseOne(done, limit, d);
      LoseSome(done + 1, n - 1, limit, d);
    }
  }

  lemma LastBreaks(n: nat, limit: Load, d: real)
    requires d >= 0.0 && Budget(n + 1, d) > SLACK
    ensures Real(Unseen(n, d), TakeOut(n, d), limit, d)
    ensures Breaks(Unseen(n, d), TakeOut(n, d))
  {
    hide Budget;
    BudgetGrows(n, d);
    BudgetNotNegative(n, d);
  }

  lemma WorstHistory(k: nat, limit: Load, d: real) returns (us: seq<Update>, u: Update)
    requires d >= 0.0 && 0 < k && Budget(k, d) > SLACK && NotNegative(limit)
    ensures BreaksAfter(us, u, k, limit, d)
  {
    hide Budget, Real, RealRun, Run, Breaks, Losses;
    us, u := Losses(k - 1, limit, d), TakeOut(k - 1, d);
    BudgetGrows(0, d);
    assert CLEAN == Unseen(0, d);
    LoseSome(0, k - 1, limit, d);
    LastBreaks(k - 1, limit, d);
  }

  /** The `k`-th update of a location can be refused as broken exactly when `k` errors
      exceed the slack, however little the location holds. */
  lemma BreaksBeyondBudget(k: nat, limit: Load, d: real)
    requires d >= 0.0 && NotNegative(limit)
    ensures MayBreak(k, limit, d) <==> k as real * d > 0.0000001
  {
    BudgetGrows(0, d);
    if Budget(k, d) > SLACK {
      var us, u := WorstHistory(k, limit, d);
      assert BreaksAfter(us, u, k, limit, d);
    } else {
      forall us, u ensures !BreaksAfter(us, u, k, limit, d) {
        NeverBreaksWithinBudget(us, u, k, limit, d);
      }
    }
  }
}
