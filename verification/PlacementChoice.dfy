/** The choice of a location: the best score wins, ties go to the smallest id, the order
    of the list does not matter, and when the floor of the search hides nothing. */
module PlacementChoice {
  import opened Domain
  import opened InventoryRules
  import opened PlacementRules

  // ----- the loop finds the maximum -----

  predicate Beats(a: Candidate, x: real, b: Candidate, y: real) {
    x > y || (x == y && a.id <= b.id)
  }

  /** `c` is the best of the eligible candidates whose score is above the floor. */
  ghost predicate Best(cs: seq<Candidate>, warehouse: Uuid, storage: StorageType, load: Load, so: Choice) {
    && (so.chosen.None? ==> so.best == FLOOR)
    && (so.chosen.Some? ==>
          && so.chosen.value in cs && so.best > FLOOR
          && Score(so.chosen.value, warehouse, storage, load) == Some(so.best))
    && forall c | c in cs && Score(c, warehouse, storage, load).Some? ::
         var x := Score(c, warehouse, storage, load).value;
         x <= FLOOR || (so.chosen.Some? && Beats(so.chosen.value, so.best, c, x))
  }

  lemma {:induction false} ChooseIsBest(cs: seq<Candidate>, warehouse: Uuid, storage: StorageType, load: Load)
    ensures Best(cs, warehouse, storage, load, Choose(cs, warehouse, storage, load))
  {
    hide Score;
    if cs != [] {
      ChooseIsBest(cs[..|cs| - 1], warehouse, storage, load);
      assert cs == cs[..|cs| - 1] + [cs[|cs| - 1]];
    }
  }

  /** Nothing is chosen exactly when no eligible candidate scores above the floor. */
  lemma NoneIsChosen(cs: seq<Candidate>, warehouse: Uuid, storage: StorageType, load: Load)
    ensures Choose(cs, warehouse, storage, load).chosen.None? <==>
              forall c | c in cs && Score(c, warehouse, storage, load).Some? ::
                  Score(c, warehouse, storage, load).value <= FLOOR
  {
    hide Score;
    ChooseIsBest(cs, warehouse, storage, load);
  }

  /** The order in which the warehouse service lists its locations does not matter. */
  lemma OrderDoesNotMatter(a: seq<Candidate>, b: seq<Candidate>, warehouse: Uuid, storage: StorageType, load: Load)
    requires forall c :: c in a <==> c in b
    requires forall c, d | c in a && d in a && c.id == d.id :: c == d
    ensures Choose(a, warehouse, storage, load) == Choose(b, warehouse, storage, load)
  {
    hide Score;
    ChooseIsBest(a, warehouse, storage, load);
    ChooseIsBest(b, warehouse, storage, load);
  }

  // ----- how low a score can be -----

  lemma RatioBounds(x: real, y: real)
    requires 0.0 <= x <= y && 0.0 < y
    ensures 0.0 <= x / y <= 1.0 && (x < y ==> x / y < 1.0)
  {
  }

  lemma NearnessBounds(distance: real)
    requires distance >= 0.0
    ensures 0.0 < Nearness(distance) <= 30.0
  {
    var d := 1.0 + distance / 10.0;
    assert d >= 1.0;
    QuotientBounds(d);
  }

  lemma QuotientBounds(d: real)
    requires d >= 1.0
    ensures 0.0 < 30.0 / d <= 30.0
  {
  }

  /** The numbers the warehouse service accepts for a location. */
  predicate Plausible(c: Candidate) {
    c.current.weight >= 0.0 && c.current.volume >= 0.0 && c.distance >= 0.0
  }

  predicate Fits(c: Candidate, load: Load) {
    && c.current.weight + load.weight <= c.site.limit.weight
    && c.current.volume + load.volume <= c.site.limit.volume
  }

  /** An eligible candidate that fits without using the tolerance scores above 20 and at most 100. */
  lemma ExactFitScores(c: Candidate, warehouse: Uuid, storage: StorageType, load: Load)
    requires Plausible(c) && Suitable(c, warehouse, storage, load) && Fits(c, load)
    ensures 20.0 < Score(c, warehouse, storage, load).value <= 100.0
  {
    var l := c.site.limit;
    RatioBounds(c.current.weight, l.weight);
    RatioBounds(c.current.volume, l.volume);
    RatioBounds(l.weight - c.current.weight - load.weight, l.weight);
    RatioBounds(l.volume - c.current.volume - load.volume, l.volume);
    NearnessBounds(c.distance);
    hide Nearness;
  }

  /** The smallest limit at which the floor is out of reach: 50 tolerances per unit of
      limit must not outweigh the distance from 20 down to the floor. */
  const EDGE := 50.0 * TOLERANCE / (20.0 - FLOOR)

  lemma SlackBounds(x: real, y: real)
    requires y > 0.0 && -TOLERANCE <= x
    ensures x / y >= -TOLERANCE / y
  {
  }

  lemma EdgeBounds(y: real)
    requires y >= EDGE
    ensures 50.0 * (TOLERANCE / y) <= 20.0 - FLOOR
  {
    assert 50.0 * TOLERANCE <= (20.0 - FLOOR) * y;
  }

  lemma OccupancyBounds(x: real, y: real)
    requires 0.0 <= x < y + TOLERANCE && 0.0 < y
    ensures 0.0 <= x / y < 1.0 + TOLERANCE / y
  {
    assert (1.0 + TOLERANCE / y) * y == y + TOLERANCE;
  }

  /** With limits of at least the edge every eligible candidate beats the floor. */
  lemma FloorHidesNothing(c: Candidate, warehouse: Uuid, storage: StorageType, load: Load)
    requires Plausible(c) && Suitable(c, warehouse, storage, load)
    requires c.site.limit.weight >= EDGE && c.site.limit.volume >= EDGE
    ensures Score(c, warehouse, storage, load).value > FLOOR
  {
    var l := c.site.limit;
    var tw, tv := TOLERANCE / l.weight, TOLERANCE / l.volume;
    OccupancyBounds(c.current.weight, l.weight);
    OccupancyBounds(c.current.volume, l.volume);
    SlackBounds(l.weight - c.current.weight - load.weight, l.weight);
    SlackBounds(l.volume - c.current.volume - load.volume, l.volume);
    EdgeBounds(l.weight);
    EdgeBounds(l.volume);
    NearnessBounds(c.distance);
    hide Nearness;
  }

  /** Below the edge some load is tolerated although its score is below the floor. */
  lemma LowScore(y: real) returns (w: real, distance: real)
    requires 0.0 < y < EDGE
    ensures 0.0 < w <= y && distance >= 0.0
    ensures 40.0 + 30.0 * (-TOLERANCE / y) + Nearness(distance) - 20.0 * ((y + TOLERANCE - w) / y) <= FLOOR
  {
    var g := 50.0 * (TOLERANCE / y) - (20.0 - FLOOR);
    GapIsPositive(y);
    var t := MinR(1.0, g / 40.0);
    w := y * t;
    distance := 600.0 / g;
    PartBounds(y, t);
    NearnessFalls(g);
    assert (y + TOLERANCE - w) / y == 1.0 + TOLERANCE / y - t by { SplitRatio(y, t); }
    hide Nearness;
    assert -TOLERANCE / y == -(TOLERANCE / y);
  }

  lemma GapIsPositive(y: real)
    requires 0.0 < y < EDGE
    ensures 50.0 * (TOLERANCE / y) - (20.0 - FLOOR) > 0.0
  {
    assert (20.0 - FLOOR) * y < 50.0 * TOLERANCE;
    assert 50.0 * (TOLERANCE / y) * y == 50.0 * TOLERANCE;
  }

  lemma PartBounds(y: real, t: real)
    requires 0.0 < y && 0.0 < t <= 1.0
    ensures 0.0 < y * t <= y
  {
  }

  lemma SplitRatio(y: real, t: real)
    requires 0.0 < y
    ensures (y + TOLERANCE - y * t) / y == 1.0 + TOLERANCE / y - t
  {
    assert (1.0 + TOLERANCE / y - t) * y == y + TOLERANCE - y * t;
  }

  lemma NearnessFalls(g: real)
    requires g > 0.0
    ensures 600.0 / g >= 0.0 && Nearness(600.0 / g) <= g / 2.0
  {
    var d := 1.0 + 60.0 / g;
    assert 600.0 / g / 10.0 == 60.0 / g;
    assert 60.0 / g >= 0.0;
    assert (g / 2.0) * d == g / 2.0 + 30.0;
    QuotientAtMost(30.0, d, g / 2.0);
  }

  lemma QuotientAtMost(x: real, d: real, q: real)
    requires d > 0.0 && x <= q * d
    ensures x / d <= q
  {
  }

  /** Whatever plausible load is tried, the floor never hides an eligible candidate of the site. */
  ghost predicate NeverHidden(site: Site) {
    forall c: Candidate, load: Load | c.site == site && Plausible(c)
        && Suitable(c, site.warehouse, site.storage, load) ::
      Score(c, site.warehouse, site.storage, load).value > FLOOR
  }

  lemma HiddenBelowEdge(site: Site) returns (c: Candidate, load: Load)
    requires site.zone == Storage && site.limit.weight > 0.0 && site.limit.volume > 0.0
    requires site.limit.weight < EDGE || site.limit.volume < EDGE
    ensures c.site == site && Plausible(c) && Suitable(c, site.warehouse, site.storage, load)
    ensures Score(c, site.warehouse, site.storage, load).value <= FLOOR
    ensures Choose([c], site.warehouse, site.storage, load).chosen.None?
  {
    var l := site.limit;
    if l.weight < EDGE {
      var w, d := LowScore(l.weight);
      c := Candidate(0, site, Load(l.weight + TOLERANCE - w, 0.0), d, Available);
      load := Load(w, l.volume / 2.0);
    } else {
      var v, d := LowScore(l.volume);
      c := Candidate(0, site, Load(0.0, l.volume + TOLERANCE - v), d, Available);
      load := Load(l.weight / 2.0, v);
    }
    LowIsLow(c, load);
    NoneIsChosen([c], site.warehouse, site.storage, load);
  }

  lemma LowIsLow(c: Candidate, load: Load)
    requires c.site.limit.weight > 0.0 && c.site.limit.volume > 0.0 && load.weight > 0.0 && load.volume > 0.0
    requires var l := c.site.limit;
             || (40.0 + 30.0 * (-TOLERANCE / l.weight)
                 + Nearness(c.distance) - 20.0 * (c.current.weight / l.weight) <= FLOOR
                 && l.weight - c.current.weight - load.weight == -TOLERANCE)
             || (40.0 + 30.0 * (-TOLERANCE / l.volume)
                 + Nearness(c.distance) - 20.0 * (c.current.volume / l.volume) <= FLOOR
                 && l.volume - c.current.volume - load.volume == -TOLERANCE)
    requires Suitable(c, c.site.warehouse, c.site.storage, load)
    ensures Score(c, c.site.warehouse, c.site.storage, load).value <= FLOOR
  {
    hide Nearness;
  }

  /** The floor is safe for a storage location exactly when both limits reach the edge. */
  lemma FloorIsSafe(site: Site)
    requires site.zone == Storage && site.limit.weight > 0.0 && site.limit.volume > 0.0
    ensures NeverHidden(site) <==> site.limit.weight >= EDGE && site.limit.volume >= EDGE
  {
    hide Suitable, Nearness, Choose;
    if site.limit.weight >= EDGE && site.limit.volume >= EDGE {
      forall c: Candidate, load: Load | c.site == site && Plausible(c)
          && Suitable(c, site.warehouse, site.storage, load)
        ensures Score(c, site.warehouse, site.storage, load).value > FLOOR
      {
        FloorHidesNothing(c, site.warehouse, site.storage, load);
      }
    } else {
      var c, load := HiddenBelowEdge(site);
    }
  }
}
