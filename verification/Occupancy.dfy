/** The occupancy projection under reordering and repetition: the highest revision wins,
    whatever the order in which capacity reports arrive. */
module Occupancy {
  import opened Domain
  import opened Events
  import opened OccupancyRules

  datatype Report = Report(load: Load, revision: nat)

  function Fold(x: Place, reports: seq<Report>): Place {
    if reports == [] then x
    else
      var last := reports[|reports| - 1];
      Project(Fold(x, reports[..|reports| - 1]), last.load, last.revision)
  }

  /** The status of a location that nobody has closed: full when either limit is reached,
      available when nothing is there, and partially occupied in between. */
  predicate Shows(status: LocationStatus, current: Load, limit: Load) {
    && (status == Full <==> current.weight >= limit.weight || current.volume >= limit.volume)
    && (status == Available <==> status != Full && current.weight <= 0.0 && current.volume <= 0.0)
    && status in {Full, Available, PartiallyOccupied}
  }

  lemma OccupancyShows(current: Load, limit: Load)
    ensures Shows(Occupancy(current, limit), current, limit)
    ensures forall status :: Shows(status, current, limit) ==> status == Occupancy(current, limit)
  {
  }

  /** Setting a status: a location can be blocked, taken into maintenance, or opened again to
      what its load shows; nothing else of it changes. */
  lemma StatusDecides(s: Store, id: Uuid, status: LocationStatus)
    ensures var o := SetStatus(s, id, status);
            if id !in s.rows then o == Err(Fault(NotFound, 404))
            else if status == PartiallyOccupied || status == Full then o == Err(Fault(ValidationError, 400))
            else
              && o.Ok? && id in o.value.rows
              && var before, after := s.rows[id], o.value.rows[id];
                 && (if status == Available then Shows(after.status, before.current, before.site.limit)
                     else after.status == status)
                 && o.value.rows == s.rows[id := before.(status := after.status)]
                 && o.value.outbox == s.outbox
                     + [WarehouseLocationStatusChanged(id, before.site.warehouse, after.status)]
  {
  }

  /** A report about a location that does not exist fails, one that is not newer than the row
      does nothing, and no other row changes. */
  lemma ReportDecides(s: Store, e: Event)
    ensures var o := Handle(s, e);
            if !e.LocationCapacityChanged? then o == Ok(s)
            else if e.location !in s.rows then o == Err(Fault(NotFound, 404))
            else
              var before := s.rows[e.location];
              && o.Ok? && e.location in o.value.rows
              && var after := o.value.rows[e.location];
                 && Newest(before, [Report(e.load, e.revision)], after)
                 && o.value == s.(rows := s.rows[e.location := after])
  {
    if e.LocationCapacityChanged? && e.location in s.rows {
      var r := Report(e.load, e.revision);
      assert [r][..0] == [];
      assert Fold(s.rows[e.location], [r]) == Project(s.rows[e.location], e.load, e.revision);
      FoldIsNewest(s.rows[e.location], [r]);
    }
  }

  /** Reports with the same revision have the same content. */
  ghost predicate Coherent(reports: seq<Report>) {
    forall a, b | a in reports && b in reports && a.revision == b.revision :: a == b
  }

  /** The projection is exactly the newest report, if it is newer than the row. */
  ghost predicate Newest(x: Place, reports: seq<Report>, y: Place) {
    && y.site == x.site
    && (forall r | r in reports :: r.revision <= y.revision)
    && (|| (y == x && forall r | r in reports :: r.revision <= x.revision)
        || (Report(y.current, y.revision) in reports && x.revision < y.revision
            && if x.status in {Blocked, Maintenance} then y.status == x.status
               else Shows(y.status, y.current, x.site.limit)))
  }

  lemma {:induction false} FoldIsNewest(x: Place, reports: seq<Report>)
    ensures Newest(x, reports, Fold(x, reports))
  {
    if reports != [] {
      var init, last := reports[..|reports| - 1], reports[|reports| - 1];
      FoldIsNewest(x, init);
      assert reports == init + [last];
    }
  }

  /** At most one row is the newest: the content decides, not the order. */
  lemma NewestIsUnique(x: Place, reports: seq<Report>, y: Place, z: Place)
    requires Coherent(reports) && Newest(x, reports, y) && Newest(x, reports, z)
    ensures y == z
  {
  }

  /** Two deliveries of the same reports, in any order and with any repetitions, project
      to the same row. */
  lemma OrderIsIrrelevant(x: Place, a: seq<Report>, b: seq<Report>)
    requires Coherent(a) && forall r :: r in a <==> r in b
    ensures Fold(x, a) == Fold(x, b)
  {
    FoldIsNewest(x, a);
    FoldIsNewest(x, b);
    assert Newest(x, a, Fold(x, b)) by { SameReports(x, b, a, Fold(x, b)); }
    NewestIsUnique(x, a, Fold(x, a), Fold(x, b));
  }

  lemma SameReports(x: Place, a: seq<Report>, b: seq<Report>, y: Place)
    requires Newest(x, a, y) && forall r :: r in a <==> r in b
    ensures Newest(x, b, y)
  {
  }
}
