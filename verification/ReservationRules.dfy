/** The client-facing reservation lifecycle: what the reservation service does to
    its rows and its outbox. */
module ReservationRules {
  import opened Domain
  import opened Events

  /** `PENDING`, `CANCELLING`, or the status the inventory service has announced. */
  datatype Life = Pending | Cancelling | Known(status: Status)

  datatype Reservation = Reservation(
    warehouse: Uuid, items: seq<Line>, life: Life, expires: Time, reason: Option<Code>)

  datatype Store = Store(rows: map<Uuid, Reservation>, outbox: seq<Event>)

  datatype Input = Input(warehouse: Uuid, items: seq<Line>, ttl: Option<int>)

  const DEFAULT_TTL := 1800

  function Emit(s: Store, e: Event): Store {
    s.(outbox := s.outbox + [e])
  }

  predicate Duplicate(items: seq<Line>) {
    exists i, j | 0 <= i < j < |items| :: items[i].product == items[j].product
  }

  /** The bean-validation constraints on a request. */
  predicate Validated(q: Input) {
    && q.items != []
    && (forall l | l in q.items :: l.quantity >= 1)
    && (q.ttl.Some? ==> 1 <= q.ttl.value <= DEFAULT_TTL)
  }

  function Create(s: Store, now: Time, q: Input, newId: Uuid): Outcome<Store> {
    if !Validated(q) || Duplicate(q.items) then Err(Fault(ValidationError, 400))
    else if newId in s.rows then Err(Broken(DuplicateKey))
    else
      var expires := now + if q.ttl.Some? then q.ttl.value else DEFAULT_TTL;
      var r := Reservation(q.warehouse, q.items, Pending, expires, None);
      Ok(Emit(s.(rows := s.rows[newId := r]), ReservationRequested(newId, q.warehouse, q.items, expires)))
  }

  function Cancel(s: Store, id: Uuid): Outcome<Store> {
    if id !in s.rows then Err(Fault(NotFound, 404))
    else
      var r := s.rows[id];
      if r.life in {Known(Completed), Known(ExpiredStatus), Known(Rejected)} then Err(Fail(InvalidState))
      else if r.life == Known(Cancelled) then Ok(s)
      else
        Ok(Emit(s.(rows := s.rows[id := r.(life := Cancelling)]),
                ReservationCancellationRequested(id, r.warehouse, None)))
  }

  predicate Terminal(l: Life) {
    l.Known? && l.status != Confirmed
  }

  /** The reservation an inventory result is about, the status it stands for and its reason. */
  datatype News = News(reservation: Uuid, status: Status, reason: Option<Code>)

  function Read(e: Event): Option<News> {
    match e
    case StockReserved(r, _, _, _) => Some(News(r, Confirmed, None))
    case ReservationRejected(r, _, _, _, code) => Some(News(r, Rejected, Some(code)))
    case StockReservationCancelled(r, _, _) => Some(News(r, Cancelled, None))
    case ReservationExpired(r, _, _) => Some(News(r, ExpiredStatus, None))
    case StockShipped(r, _, _, _) => Some(News(r, Completed, None))
    case _ => None
  }

  function Learn(r: Reservation, news: News): Reservation {
    if Terminal(r.life) || (r.life == Cancelling && news.status == Confirmed) then r
    else r.(life := Known(news.status), reason := news.reason)
  }

  function Handle(s: Store, e: Event): Outcome<Store> {
    match Read(e)
    case None => Ok(s)
    case Some(news) =>
      if news.reservation !in s.rows then Err(Fault(NotFound, 404))
      else Ok(s.(rows := s.rows[news.reservation := Learn(s.rows[news.reservation], news)]))
  }
}
