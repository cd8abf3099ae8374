/** Sums over the stocks table. */
module Totals {
  import opened Domain

  datatype Amount = Amount(load: Load, units: int)

  const NOTHING := Amount(NO_LOAD, 0)

  function Add(a: Amount, b: Amount): Amount {
    Amount(Plus(a.load, b.load), a.units + b.units)
  }

  /** What a lot contributes to a sum. */
  type Measure = Lot -> Amount

  /** The load on one location. */
  function AtLocation(location: Uuid): Measure {
    (x: Lot) => if x.location == Some(location) then Amount(Times(x.quantity, x.unit), 0) else NOTHING
  }

  /** The reserved units of a product in a warehouse. */
  function ReservedFor(warehouse: Uuid, product: Uuid): Measure {
    (x: Lot) => if x.warehouse == warehouse && x.product == product then Amount(NO_LOAD, x.reserved) else NOTHING
  }

  /** The unreserved units. */
  function Unreserved(): Measure {
    (x: Lot) => Amount(NO_LOAD, x.quantity - x.reserved)
  }

  ghost function Total(lots: map<Uuid, Lot>, f: Measure): Amount
    decreases |lots|
  {
    if lots == map[] then NOTHING
    else
      var id :| id in lots;
      Add(f(lots[id]), Total(lots - {id}, f))
  }

  lemma TotalOfNothing(f: Measure)
    ensures Total(map[], f) == NOTHING
  {
  }

  /** The sum does not depend on the order in which the lots are visited. */
  lemma {:induction false} TotalWithout(lots: map<Uuid, Lot>, id: Uuid, f: Measure)
    requires id in lots
    ensures Total(lots, f) == Add(f(lots[id]), Total(lots - {id}, f))
    decreases |lots|
  {
    var k: Uuid :| k in lots && Total(lots, f) == Add(f(lots[k]), Total(lots - {k}, f));
    if k != id {
      var rest := lots - {k} - {id};
      TotalWithout(lots - {k}, id, f);
      TotalWithout(lots - {id}, k, f);
      assert Total(lots - {k}, f) == Add(f(lots[id]), Total(rest, f));
      assert lots - {id} - {k} == rest;
      assert Total(lots - {id}, f) == Add(f(lots[k]), Total(rest, f));
      assert Add(f(lots[k]), Add(f(lots[id]), Total(rest, f))) == Add(f(lots[id]), Add(f(lots[k]), Total(rest, f)));
    }
  }

  function Before(lots: map<Uuid, Lot>, id: Uuid, f: Measure): Amount {
    if id in lots then f(lots[id]) else NOTHING
  }

  lemma {:induction false} TotalUpdate(lots: map<Uuid, Lot>, id: Uuid, x: Lot, f: Measure)
    ensures Add(Total(lots[id := x], f), Before(lots, id, f)) == Add(Total(lots, f), f(x))
  {
    var updated := lots[id := x];
    TotalWithout(updated, id, f);
    if id in lots {
      TotalWithout(lots, id, f);
      assert updated - {id} == lots - {id};
    } else {
      assert updated - {id} == lots;
    }
  }

  predicate NonNegative(a: Amount) {
    a.load.weight >= 0.0 && a.load.volume >= 0.0 && a.units >= 0
  }

  lemma {:induction false} TotalNonNegative(lots: map<Uuid, Lot>, f: Measure)
    requires forall id | id in lots :: NonNegative(f(lots[id]))
    ensures NonNegative(Total(lots, f))
    decreases |lots|
  {
    if lots != map[] {
      var id :| id in lots;
      TotalNonNegative(lots - {id}, f);
      TotalWithout(lots, id, f);
    }
  }

  lemma {:induction false} TotalNothing(lots: map<Uuid, Lot>, f: Measure)
    requires forall id | id in lots :: f(lots[id]) == NOTHING
    ensures Total(lots, f) == NOTHING
    decreases |lots|
  {
    if lots != map[] {
      var id :| id in lots;
      TotalNothing(lots - {id}, f);
      TotalWithout(lots, id, f);
    }
  }

  lemma {:induction false} TotalPointwise(lots: map<Uuid, Lot>, after: map<Uuid, Lot>, f: Measure)
    requires lots.Keys == after.Keys && forall id | id in lots :: f(lots[id]) == f(after[id])
    ensures Total(lots, f) == Total(after, f)
    decreases |lots|
  {
    if lots == map[] {
      assert after == map[];
    } else {
      var id :| id in lots;
      TotalPointwise(lots - {id}, after - {id}, f);
      TotalWithout(lots, id, f);
      TotalWithout(after, id, f);
    }
  }

  lemma TimesZero(unit: Load)
    ensures Times(0, unit) == NO_LOAD
  {
  }

  lemma TimesNonNegative(n: int, unit: Load)
    requires 0 <= n && unit.weight > 0.0 && unit.volume > 0.0
    ensures Times(n, unit).weight >= 0.0 && Times(n, unit).volume >= 0.0
  {
  }

  lemma TimesAdds(a: int, b: int, unit: Load)
    ensures Plus(Times(a, unit), Times(b, unit)) == Times(a + b, unit)
  {
  }
}
