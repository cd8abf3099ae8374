/** The event contract: the payloads that travel through outbox, broker and inbox. */
module Events {
  import opened Domain

  datatype Event =
    // inventory
    | GoodsReceived(stock: Uuid, product: Uuid, warehouse: Uuid, quantity: int, unit: Load, storage: StorageType)
    | StockAdded(stock: Uuid, product: Uuid, warehouse: Uuid, location: Uuid, quantity: int)
    | StockMoved(stock: Uuid, destination: Uuid, product: Uuid, warehouse: Uuid, quantity: int,
                 from: Option<Uuid>, to: Uuid)
    | StockWrittenOff(stock: Uuid, product: Uuid, warehouse: Uuid, quantity: int, cause: string)
    | StockAdjusted(stock: Uuid, product: Uuid, warehouse: Uuid, quantity: int, delta: int, cause: string)
    | LocationCapacityChanged(location: Uuid, warehouse: Uuid, load: Load, revision: nat)
    | StockReserved(reservation: Uuid, warehouse: Uuid, lines: seq<Line>, expires: Time)
    | ReservationRejected(reservation: Uuid, warehouse: Uuid, lines: seq<Line>, expires: Time, reason: Code)
    | StockReservationCancelled(reservation: Uuid, warehouse: Uuid, items: seq<Item>)
    | ReservationExpired(reservation: Uuid, warehouse: Uuid, items: seq<Item>)
    | ReservationCancellationRejected(reservation: Uuid, warehouse: Uuid, requester: Option<Uuid>, reason: Code)
    | StockShipped(reservation: Uuid, warehouse: Uuid, shipment: Uuid, items: seq<Item>)
    | ShipmentRejected(reservation: Uuid, warehouse: Uuid, shipment: Uuid, reason: Code)
    | PlacementRejected(stock: Uuid, warehouse: Uuid, location: Uuid, reason: Code)
    // placement
    | ProductPlacementAssigned(stock: Uuid, warehouse: Uuid, location: Uuid, score: real)
    // reservation
    | ReservationRequested(reservation: Uuid, warehouse: Uuid, lines: seq<Line>, expires: Time)
    // reservation and shipment
    | ReservationCancellationRequested(reservation: Uuid, warehouse: Uuid, requester: Option<Uuid>)
    // shipment
    | ShipmentCreated(shipment: Uuid, warehouse: Uuid, reservation: Uuid, lines: seq<Line>)
    | ShipmentStatusChanged(shipment: Uuid, warehouse: Uuid, status: ShipmentStatus)
    | ShipmentRequested(shipment: Uuid, warehouse: Uuid, reservation: Uuid)
    | ShipmentCompleted(shipment: Uuid, warehouse: Uuid, reservation: Uuid, lines: seq<Line>)
    // warehouse
    | WarehouseLocationStatusChanged(location: Uuid, warehouse: Uuid, locationStatus: LocationStatus)

  datatype ShipmentStatus =
    | Reserved | PickingGoods | Packed | ReadyForShipment | ShippingRequested | Shipped
    | Failed | CancelPending | ShipmentCancelled
}
