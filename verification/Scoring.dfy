/** What the score of a location weighs: the room that is left after placing, the distance and
    the occupancy before, stated without quotients, maxima and minima. */
module Scoring {
  import opened Domain
  import opened PlacementRules

  // ----- who is scored -----

  /** A candidate is scored exactly when it is an open storage location of the warehouse and
      the storage type asked for, has limits, and the load fits next to what is there. */
  lemma ScoredIff(c: Candidate, warehouse: Uuid, storage: StorageType, load: Load)
    ensures Score(c, warehouse, storage, load).Some? <==>
              && c.site.warehouse == warehouse && c.site.zone == Storage && c.site.storage == storage
              && c.status in {Available, PartiallyOccupied, Full}
              && c.site.limit.weight > 0.0 && c.site.limit.volume > 0.0 && load.weight > 0.0 && load.volume > 0.0
              && c.current.weight + load.weight <= c.site.limit.weight + 0.000000001
              && c.current.volume + load.volume <= c.site.limit.volume + 0.000000001
  {
    hide Nearness;
  }

  // ----- what it weighs -----

  /** `o` is the share of the tighter limit: neither part exceeds it and one reaches it. */
  predicate IsShare(part: Load, whole: Load, o: real) {
    && part.weight <= o * whole.weight && part.volume <= o * whole.volume
    && (part.weight == o * whole.weight || part.volume == o * whole.volume)
  }

  /** `f` is the share that is left of the scarcer room: both parts have it, and one no more. */
  predicate IsRest(part: Load, whole: Load, f: real) {
    && part.weight >= f * whole.weight && part.volume >= f * whole.volume
    && (part.weight == f * whole.weight || part.volume == f * whole.volume)
  }

  function Left(c: Candidate, load: Load): Load {
    Load(c.site.limit.weight - c.current.weight - load.weight, c.site.limit.volume - c.current.volume - load.volume)
  }

  lemma Quotient(x: real, y: real, q: real)
    requires y > 0.0
    ensures (x / y <= q <==> x <= q * y) && (x / y == q <==> x == q * y)
  {
    assert x / y * y == x;
    if x / y <= q { assert x / y * y <= q * y; }
    if x / y > q { assert x / y * y > q * y; }
  }

  lemma NearnessTimes(distance: real)
    requires distance >= 0.0
    ensures Nearness(distance) * (10.0 + distance) == 300.0
  {
    var d := 1.0 + distance / 10.0;
    assert d > 0.0 && 10.0 * d == 10.0 + distance;
    assert 30.0 / d * d == 30.0;
    assert 30.0 / d * (10.0 * d) == 10.0 * (30.0 / d * d);
  }

  lemma MaxIsShare(part: Load, whole: Load, o: real)
    requires whole.weight > 0.0 && whole.volume > 0.0 && IsShare(part, whole, o)
    ensures MaxR(part.weight / whole.weight, part.volume / whole.volume) == o
  {
    Quotient(part.weight, whole.weight, o);
    Quotient(part.volume, whole.volume, o);
  }

  lemma MinIsRest(part: Load, whole: Load, f: real)
    requires whole.weight > 0.0 && whole.volume > 0.0 && IsRest(part, whole, f)
    ensures MinR(part.weight / whole.weight, part.volume / whole.volume) == f
  {
    Quotient(part.weight, whole.weight, f);
    Quotient(part.volume, whole.volume, f);
  }

  /** A scored candidate gets 40, 30 times the share that is left, and 300 shared among ten
      plus its distance, and loses 20 times the share that was taken before. */
  lemma ScoreWeighs(c: Candidate, warehouse: Uuid, storage: StorageType, load: Load, o: real, f: real)
    requires Score(c, warehouse, storage, load).Some? && c.distance >= 0.0
    requires IsShare(c.current, c.site.limit, o) && IsRest(Left(c, load), c.site.limit, f)
    ensures (Score(c, warehouse, storage, load).value - 40.0 - 30.0 * f + 20.0 * o) * (10.0 + c.distance) == 300.0
  {
    MaxIsShare(c.current, c.site.limit, o);
    MinIsRest(Left(c, load), c.site.limit, f);
    NearnessTimes(c.distance);
    hide Nearness, MaxR, MinR, IsShare, IsRest, Suitable;
    var s := Score(c, warehouse, storage, load).value;
    assert s - 40.0 - 30.0 * f + 20.0 * o == Nearness(c.distance) by { ScoreIs(c, warehouse, storage, load, o, f); }
  }

  lemma ScoreIs(c: Candidate, warehouse: Uuid, storage: StorageType, load: Load, o: real, f: real)
    requires Score(c, warehouse, storage, load).Some?
    requires MaxR(c.current.weight / c.site.limit.weight, c.current.volume / c.site.limit.volume) == o
    requires MinR(Left(c, load).weight / c.site.limit.weight, Left(c, load).volume / c.site.limit.volume) == f
    ensures Score(c, warehouse, storage, load).value == 40.0 + 30.0 * f + Nearness(c.distance) - 20.0 * o
  {
    hide Nearness, MaxR, MinR;
  }

  // ----- what follows -----

  /** The same location at another distance. */
  function At(c: Candidate, distance: real): Candidate {
    c.(distance := distance)
  }

  lemma DistanceOnly(c: Candidate, warehouse: Uuid, storage: StorageType, load: Load, d: real)
    ensures Score(At(c, d), warehouse, storage, load).Some? <==> Score(c, warehouse, storage, load).Some?
    ensures Score(c, warehouse, storage, load).Some? ==>
              Score(At(c, d), warehouse, storage, load).value - Nearness(d)
              == Score(c, warehouse, storage, load).value - Nearness(c.distance)
  {
    hide Nearness, MaxR, MinR;
  }

  /** Moving a location from distance 0 to `d` costs 30 less 300 shared among ten plus `d`. */
  lemma DistanceCosts(c: Candidate, warehouse: Uuid, storage: StorageType, load: Load, d: real)
    requires Score(c, warehouse, storage, load).Some? && d >= 0.0
    ensures var near, far := Score(At(c, 0.0), warehouse, storage, load), Score(At(c, d), warehouse, storage, load);
            near.Some? && far.Some? && (far.value - near.value + 30.0) * (10.0 + d) == 300.0
  {
    DistanceOnly(c, warehouse, storage, load, 0.0);
    DistanceOnly(c, warehouse, storage, load, d);
    NearnessTimes(0.0);
    NearnessTimes(d);
    hide Score, Nearness;
    var near, far := Score(At(c, 0.0), warehouse, storage, load).value, Score(At(c, d), warehouse, storage, load).value;
    assert far - near + 30.0 == Nearness(d);
  }

  /** Ten further away costs fifteen points. */
  lemma TenAwayCostsFifteen(c: Candidate, warehouse: Uuid, storage: StorageType, load: Load)
    requires Score(c, warehouse, storage, load).Some?
    ensures Score(At(c, 10.0), warehouse, storage, load).value
              == Score(At(c, 0.0), warehouse, storage, load).value - 15.0
  {
    DistanceCosts(c, warehouse, storage, load, 10.0);
    hide Score;
  }

  lemma RestOf(whole: real, taken: real, part: real, f: real, g: real)
    requires taken == g * whole && part <= f * whole
    ensures whole - taken - part >= (1.0 - f - g) * whole
    ensures part == f * whole ==> whole - taken - part == (1.0 - f - g) * whole
  {
    assert (1.0 - f - g) * whole == whole - f * whole - g * whole;
  }

  /** A location at distance 0 of which a share `g` is taken in weight and in volume, and to
      which the load adds a share `f` of the tighter limit, scores 100 - 30 f - 50 g. */
  lemma FillCosts(c: Candidate, warehouse: Uuid, storage: StorageType, load: Load, f: real, g: real)
    requires Score(c, warehouse, storage, load).Some? && c.distance == 0.0
    requires c.current.weight == g * c.site.limit.weight && c.current.volume == g * c.site.limit.volume
    requires IsShare(load, c.site.limit, f)
    ensures Score(c, warehouse, storage, load).value == 100.0 - 30.0 * f - 50.0 * g
  {
    hide Score;
    var l := c.site.limit;
    RestOf(l.weight, c.current.weight, load.weight, f, g);
    RestOf(l.volume, c.current.volume, load.volume, f, g);
    assert IsRest(Left(c, load), l, 1.0 - f - g);
    assert IsShare(c.current, l, g);
    hide IsRest, IsShare;
    ScoreWeighs(c, warehouse, storage, load, g, 1.0 - f - g);
  }

  // ----- which of two is chosen -----

  lemma Two(a: Candidate, b: Candidate, warehouse: Uuid, storage: StorageType, load: Load)
    requires Score(a, warehouse, storage, load).Some? && Score(b, warehouse, storage, load).Some?
    requires Score(a, warehouse, storage, load).value > FLOOR && Score(b, warehouse, storage, load).value > FLOOR
    requires Score(a, warehouse, storage, load).value != Score(b, warehouse, storage, load).value
    ensures Choose([a, b], warehouse, storage, load).chosen
              == Some(if Score(a, warehouse, storage, load).value > Score(b, warehouse, storage, load).value then a
                  else b)
  {
    hide Score;
    assert [a, b][..1] == [a] && [a][..0] == [];
    assert Choose([a], warehouse, storage, load) == Choice(Score(a, warehouse, storage, load).value, Some(a));
  }

  /** Distance is weighed against occupancy: an empty location at distance 4 is chosen before
      one at distance 0 that is a fifth full. */
  lemma NearIsNotAll(a: Candidate, b: Candidate, warehouse: Uuid, storage: StorageType, load: Load)
    requires Score(a, warehouse, storage, load).Some? && Score(b, warehouse, storage, load).Some?
    requires a.site.limit == b.site.limit == Load(100.0, 100.0) && load == Load(10.0, 10.0)
    requires a.current == NO_LOAD && a.distance == 4.0
    requires b.current == Load(20.0, 20.0) && b.distance == 0.0
    ensures Choose([a, b], warehouse, storage, load).chosen == Some(a)
    ensures Choose([b, a], warehouse, storage, load).chosen == Some(a)
  {
    FillCosts(At(a, 0.0), warehouse, storage, load, 0.1, 0.0) by { DistanceOnly(a, warehouse, storage, load, 0.0); }
    DistanceCosts(a, warehouse, storage, load, 4.0);
    assert At(a, 4.0) == a;
    FillCosts(b, warehouse, storage, load, 0.1, 0.2);
    hide Score;
    Two(a, b, warehouse, storage, load);
    Two(b, a, warehouse, storage, load);
  }
}
