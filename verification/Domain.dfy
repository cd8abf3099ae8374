/** Values that every service of the warehouse system talks about: identifiers,
    clock, faults, lots, reservations and the capacity ledger. */
module Domain {

  /** A UUID; only equality and the order used for tie-breaks matter. */
  type Uuid = nat

  /** Seconds; a calendar day is the floor of the time divided by SECONDS_PER_DAY. */
  type Time = int

  const SECONDS_PER_DAY := 86400

  /** The largest quantity a receipt or an adjustment accepts. */
  const MAX_QUANTITY := 1_000_000_000

  function Today(now: Time): int {
    now / SECONDS_PER_DAY
  }

  /** A day after today is one that has not begun. */
  lemma DayBegins(now: Time, day: int)
    ensures day > Today(now) <==> now < day * 86400
  {
    assert now == Today(now) * 86400 + now % 86400;
    if day > Today(now) { assert day * 86400 >= (Today(now) + 1) * 86400; }
    if day <= Today(now) { assert day * 86400 <= Today(now) * 86400; }
  }

  datatype Option<+T> = None | Some(value: T)

  datatype Code =
    | ValidationError | NotFound | Expired | InsufficientStock | AlreadyShipped
    | ReservationRequired | ReservationUnavailable | WrongWarehouse | ExpiredStock
    | LocationBlocked | IncompatibleLocation | LocationFull | SameLocation
    | ReservedStock | UnplacedStock | InactiveProduct | WarehouseUnavailable
    | DependencyUnavailable | InvalidState | IdempotencyConflict

  /** What went wrong inside a transaction without being a business decision. */
  datatype Defect =
    | CapacityViolated | ReservedUnplaced | CheckViolated | DuplicateKey | ForeignKeyViolated
    | NotYetProcessed | Unreachable

  datatype Error = Fault(code: Code, status: int) | Broken(defect: Defect)

  datatype Outcome<+T> = Ok(value: T) | Err(error: Error) {
    predicate IsFailure() {
      Err?
    }

    function PropagateFailure<U>(): Outcome<U>
      requires Err?
    {
      Err(error)
    }

    function Extract(): T
      requires Ok?
    {
      value
    }
  }

  /** What a method that changes a store in place comes to. */
  function Resulting<T>(o: Outcome<()>, after: T): Outcome<T> {
    match o
    case Ok(_) => Ok(after)
    case Err(e) => Err(e)
  }

  function Fail(code: Code): Error {
    Fault(code, 409)
  }

  /** Faults below 500 are business rejections; everything else is retried. */
  predicate Business(e: Error) {
    e.Fault? && e.status < 500
  }

  /** The answer to a lookup in another service. */
  datatype Reply<+T> = Found(value: T) | Missing | Refused | NoAnswer {
    function Get(): Outcome<T> {
      match this
      case Found(v) => Ok(v)
      case Missing => Err(Fault(NotFound, 404))
      case Refused => Err(Fault(DependencyUnavailable, 503))
      case NoAnswer => Err(Broken(Unreachable))
    }
  }

  datatype StorageType = Normal | Fragile | Cold | Hazardous | Oversized

  datatype ZoneType = Receiving | Storage | Picking | Packing | Shipping | Quarantine

  datatype LocationStatus = Available | PartiallyOccupied | Full | Blocked | Maintenance

  /** A weight and a volume: a unit size, a load or a limit. */
  datatype Load = Load(weight: real, volume: real)

  const NO_LOAD := Load(0.0, 0.0)

  function Plus(a: Load, b: Load): Load {
    Load(a.weight + b.weight, a.volume + b.volume)
  }

  function Times(n: int, unit: Load): Load {
    Load(n as real * unit.weight, n as real * unit.volume)
  }

  /** The facts about a location that never change after its creation. */
  datatype Site = Site(warehouse: Uuid, limit: Load, storage: StorageType, zone: ZoneType)

  datatype Location = Location(site: Site, status: LocationStatus)

  datatype Product = Product(unit: Load, storage: StorageType, active: bool)

  datatype Line = Line(product: Uuid, quantity: int)

  datatype Lot = Lot(
    product: Uuid,
    warehouse: Uuid,
    location: Option<Uuid>,
    quantity: int,
    reserved: int,
    batch: string,
    expiration: Option<int>,
    created: Time,
    unit: Load,
    storage: StorageType)

  datatype Status = Confirmed | Cancelled | ExpiredStatus | Completed | Rejected

  /** A reservation row of the inventory database. */
  datatype Booking = Booking(warehouse: Uuid, status: Status, expires: Time, shipment: Option<Uuid>)

  /** A row of the allocations table. */
  datatype Alloc = Alloc(reservation: Uuid, stock: Uuid, quantity: int)

  /** A row of the capacity ledger. */
  datatype Capacity = Capacity(warehouse: Uuid, load: Load, revision: nat)

  /** One product line of a released or shipped reservation. */
  datatype Item = Item(product: Uuid, stock: Uuid, quantity: int)
}
