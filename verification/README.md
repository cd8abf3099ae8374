# Verification of the warehouse management saga

This project models the event-driven inventory saga of LogiCore WMS in Dafny 4.11 and proves
properties of whole runs of it: what the inventory service does to its tables, how events travel
between the services, and what the other services may conclude from them.

`dafny verify dfyconfig.toml` checks everything.

## What is modelled

* **Inventory.** Lots, allocations, reservations, the capacity ledger and the outbox are the fields
  of the class `InventoryService.Inventory`, whose methods update them in place with the loops,
  the savepoint and the rollback of the service. Every method is held against a function on
  table values (`InventoryRules`), and the theorems are about those functions: the stock invariant
  (`StockInvariant`, `Closing`), the decision on a reservation request (`ReserveDecision`, `Fefo`),
  the ledger (`LedgerInvariant`, `Drift`, `TableDrift`, `Chains`), the event log (`EventLog`), whole runs
  (`InventorySafety`), what each command decides in terms of what a caller can see (`Requests`,
  `Decisions`, `StockCommands`) and what a location takes (`Admission`), the expiry worker (`Expiry`), repeated commands (`Repeats`) and warehouse
  locks (`Locality`, `LocalDecisions`, `Serial`).
* **Reservation, shipment, placement and warehouse services.** One class each, held against
  `ReservationRules`, `ShipmentRules`, `PlacementRules` and `OccupancyRules`. What those functions
  decide, case by case and with the errors, is in `ReservationLife`, `ShipmentLife`, `JobLife` and
  `Occupancy`, and what a placement score weighs in `Scoring`.
* **The whole system.** `System` lets an adversarial scheduler interleave commands of clients,
  expiry, placement workers and deliveries: any committed event reaches any consumer at any time,
  in any order, any number of times, and any attempt may fail. The cross-service theorems
  (`AgreementRuns`, `SagaRuns`, `ShipmentCourse`, `EndingRuns`, `OccupancyRuns`, `PlacementRuns`,
  `Addressing`, `Refusals`) hold in every reachable state; `Scenario` is one run of it, step by step.
* **Delivery.** `Relay` is the outbox with one publisher, `Inbox` the consumer side,
  `Idempotency` the keys of HTTP commands; `Messaging` and `Commands` hold the loops and
  transactions of the two runtimes against them.

Weights and volumes are real numbers; `Drift` puts rounding back as an error budget. Identifiers are
natural numbers of which only equality and order matter. A lookup in another service is a parameter
that either answers, refuses or stays silent; where a theorem needs it, `HonestFor` says that an
answer about a location tells the facts that never change after its creation. The clock is a
parameter that never runs backwards.

## Where the code and its documentation disagree

* `docs/architecture.md` draws CANCELLING as leading to CANCELLED. A shipment that is cancelled after
  the shipment service has processed the end of its reservation stays CANCELLING: the inventory
  answers such a cancellation with silence. `Scenario.StillCancelling` is a run that ends so with
  every event processed, and `EndingRuns.WhatBecomesOfACancellation` says for every run that this,
  and nothing else, is when it happens.
* `docs/architecture.md` lets a cancellation or an expiry cancel any shipment that has not shipped, so
  FAILED may become CANCELLED, but it knows no way out of CANCELLED, and a client's cancellation only
  before SHIPPING. The code also turns CANCELLED into FAILED, when the refusal is processed last
  (`Scenario.LastEventWins`), and lets a client cancel a FAILED shipment
  (`Scenario.FailedIsCancelled`). `EndingRuns.WhenEndsAreLeft` lists, for every reachable state,
  exactly the steps that leave FAILED or CANCELLED.
* The floor from which the placement search starts is no floor for every limit the warehouse service
  accepts: `PlacementChoice.FloorIsSafe` states for which limits it hides no candidate.

## Model

| member | source | states |
|---|---|---|
| `AgreementRuns.ReservationsAgree` | services/reservation-service/src/main/java/dev/logicore/reservation/application/ReservationService.java:54-86 | In every reachable state of the five services a terminal status of a reservation is the status the inventory has, and once every event between the two services has its marker all statuses are equal, also when a cancellation overtook the confirmation |
| `Agreement.SettledAgrees` | services/reservation-service/src/main/java/dev/logicore/reservation/application/ReservationService.java:69-86 | With every request and every result processed, a reservation row knows exactly the status of the inventory |
| `AgreementRuns.AgreeNext` | services/inventory-service/internal/application/reservations.go:39-60 | Every step of the scheduler keeps the inventory sound, lets its tables grow and keeps the agreement |
| `SagaRuns.ShipmentsSafe` | services/shipment-service/src/main/java/dev/logicore/shipment/application/ShipmentService.java:118-147 | In every reachable state SHIPPED means completed by exactly this shipment with every requested unit deducted in exactly one logged event, CANCELLED means cancelled or expired in the inventory, and FAILED means not completed |
| `SagaRuns.FailedForEver` | services/shipment-service/src/main/java/dev/logicore/shipment/application/ShipmentService.java:132-147 | A reservation whose shipment has failed at some moment is not completed then nor in any continuation of the run |
| `SagaRuns.ShippedIsAbsorbing` | services/shipment-service/src/main/java/dev/logicore/shipment/application/ShipmentService.java:118-137 | No step of the system ever changes a shipped row |
| `SagaRuns.CompletedAtMostOnce` | services/shipment-service/src/main/java/dev/logicore/shipment/application/ShipmentService.java:120-134 | ShipmentCompleted is emitted at most once per shipment, and exactly for the shipped ones |
| `SagaRuns.CommandsNameTheWarehouse` | services/shipment-service/src/main/java/dev/logicore/shipment/application/ShipmentService.java:87-108 | Every command about a reservation the inventory knows carries that reservation's warehouse, which releasing never checks |
| `Addressing.CommandsAreAddressed` | services/inventory-service/internal/application/reservations.go:20-38 | In every reachable state every event the inventory may consume names reservations and lots of its own warehouse only, so the lock it takes covers what it touches |
| `Refusals.NeverWrongWarehouse` | services/inventory-service/internal/application/reservations.go:24-60 | In every reachable state no refusal the inventory has ever written gives WRONG_WAREHOUSE as its reason, be it of the reservation, the lot or the location |
| `Refusals.HandleRefuses` | services/inventory-service/internal/application/reservations.go:39-60 | Consuming an event writes a refusal exactly when the decision on a command failed, as its only event and with the code of the failure |
| `Saga.ShippedIsDeducted` | services/inventory-service/internal/application/reservations.go:171-239 | The event that shipped a reservation deducts for every product the units the shipment lists |
| `ShipmentCourse.ShipmentsKeepTheirCourse` | services/shipment-service/src/main/java/dev/logicore/shipment/application/ShipmentService.java:72-116 | In every reachable state a request to ship stands in the log after its shipment was announced as picked and then as packed, and a shipment that takes its reservation back after such a request has been refused by the inventory |
| `EndingRuns.ShipmentsSettle` | services/shipment-service/src/main/java/dev/logicore/shipment/application/ShipmentService.java:118-147 | In every reachable state in which every event between shipment service and inventory is processed, no shipment is SHIPPING, exactly the shipments of completed reservations are SHIPPED, and the reservation of a CANCELLING one is cancelled or expired |
| `EndingRuns.WhatBecomesOfAClaim` | services/shipment-service/src/main/java/dev/logicore/shipment/application/ShipmentService.java:32-70 | For every run: once all events are processed, the reservation of a shipment that is still being prepared is confirmed if and only if the shipment service had not processed the end of the reservation before it accepted the claim |
| `EndingRuns.WhatBecomesOfACancellation` | services/shipment-service/src/main/java/dev/logicore/shipment/application/ShipmentService.java:99-108 | For every run: once all events are processed, a shipment that a client cancelled is still CANCELLING if and only if the shipment service had processed the end of its reservation before it accepted the cancellation, and CANCELLED otherwise |
| `EndingRuns.WhenEndsAreLeft` | services/shipment-service/src/main/java/dev/logicore/shipment/application/ShipmentService.java:132-147 | In every reachable state a step rewrites a FAILED or CANCELLED row if and only if it is the first delivery of the end of the reservation to a FAILED one, of the refusal to a CANCELLED one, or the cancellation of a FAILED one, and what the row becomes |
| `Scenario.StillCancelling` | services/shipment-service/src/main/java/dev/logicore/shipment/application/ShipmentService.java:99-108 | A run from the empty system that ends with every event between the three services processed and the shipment CANCELLING |
| `Scenario.LastEventWins` | services/shipment-service/src/main/java/dev/logicore/shipment/application/ShipmentService.java:136-145 | Two runs with the same events in two orders: CANCELLED becomes FAILED, and FAILED becomes CANCELLED |
| `Scenario.FailedIsCancelled` | services/shipment-service/src/main/java/dev/logicore/shipment/application/ShipmentService.java:99-108 | A run in which a FAILED shipment is cancelled by its client |
| `OccupancyRuns.ProjectionConverges` | services/warehouse-service/src/main/java/dev/logicore/warehouse/application/WarehouseService.java:90-117 | In every reachable state the projection of a location is never ahead of the ledger; an open location is FULL exactly when its weight or its volume has reached the limit and AVAILABLE exactly when neither has and nothing is there; once every report is consumed, both can be read off the summed load of the lots that stand there |
| `Occupancy.OrderIsIrrelevant` | services/warehouse-service/src/main/java/dev/logicore/warehouse/application/WarehouseService.java:107-117 | Two deliveries of the same reports, reordered and repeated in any way, project to the same row |
| `Occupancy.FoldIsNewest` | services/warehouse-service/src/main/java/dev/logicore/warehouse/application/WarehouseService.java:107-117 | After any sequence of reports the row holds the one with the highest revision, and an open location the status that its load shows |
| `Occupancy.StatusDecides` | services/warehouse-service/src/main/java/dev/logicore/warehouse/application/WarehouseService.java:90-105 | A status can be set to BLOCKED or MAINTENANCE, or opened again to FULL, PARTIALLY_OCCUPIED or AVAILABLE as weight and volume against the limit say; any other is refused, and nothing else of the location changes |
| `Occupancy.ReportDecides` | services/warehouse-service/src/main/java/dev/logicore/warehouse/application/WarehouseService.java:107-117 | A report of an unknown location fails; one of a newer revision replaces load, revision and, unless closed, status of its row; any other changes nothing |
| `PlacementRuns.NoLotIsLost` | services/placement-service/internal/application/service.go:71-136 | In every reachable state a lot with units and no location has an unprocessed receipt, a pending job, or an assigned job with an unprocessed assignment or rejection; a PLACED job means the lot is placed |
| `PlacementRuns.PlacedAtMostOnce` | services/inventory-service/internal/application/reservations.go:240-262 | Over any number of assignments a lot is announced as placed at most once, and its location never changes afterwards |
| `PlacementLog.AssignmentAnswered` | services/inventory-service/internal/application/reservations.go:240-262 | A processed assignment leaves its lot placed, empty, or refused by the last event of the log |
| `InventorySafety.RunSafe` | services/inventory-service/internal/application/reservations.go:14-61 | Any run of transactions keeps stock invariant, ledger and event log together: 0 <= reserved <= quantity <= 1e9, reserved is what confirmed reservations hold, only placed lots are reserved, every ledger row is the load of its lots and at most 1e-9 over the limit |
| `InventorySafety.CommitSafe` | services/inventory-service/internal/application/service.go:162-228 | Every transaction, committed or rolled back, keeps the three invariants, and with new ids it fails only by a business fault, a missing answer or a cancellation that came too early: no CHECK, key, "reserved stock is unplaced" or "capacity invariant violated" is ever hit |
| `Admission.LotsStandWhereTheyBelong` | services/inventory-service/internal/application/service.go:66-86 | In every reachable state every placed lot stands in a storage zone of its own warehouse at a location of its own storage type |
| `Admission.ArrivalsAreAdmitted` | services/inventory-service/internal/application/service.go:66-86 | A lot comes to a location, or grows there, only in a transaction that has just been shown that location, open and made for the lot |
| `Admission.ChargeAdmits` | services/inventory-service/internal/application/service.go:87-95 | A growing charge goes through exactly when the location is open, takes the lot, and the sum of the lots there with the addition is within its limit and the tolerance |
| `Admission.LoadAdds` | services/inventory-service/internal/application/service.go:87-105 | The load of a location is the sum over its lots of units times unit weight and unit volume |
| `StockInvariant.TakeAllKeeps` | services/inventory-service/internal/application/reservations.go:119-132 | The allocation loop of one line cannot fail on the offers of the query, reserves exactly the greedy rows and keeps every lot within its bounds |
| `StockInvariant.AdjustKeeps` | services/inventory-service/internal/application/service.go:162-186 | An adjustment keeps reserved <= quantity <= 1e9 and the sum of confirmed allocations |
| `StockInvariant.MoveKeeps` | services/inventory-service/internal/application/service.go:187-227 | A move keeps the bounds of source and destination and the sum of confirmed allocations |
| `Closing.ReleaseKeeps` | services/inventory-service/internal/application/reservations.go:140-170 | A release of a confirmed reservation takes exactly the units it holds of every lot off the reserved ones, any other touches no lot, and the invariant is kept |
| `Closing.ShipKeeps` | services/inventory-service/internal/application/reservations.go:171-239 | A shipment of a confirmed reservation takes exactly the units it holds of every lot out of reserved and out of quantity, a repeated one touches no lot, and the invariant is kept |
| `Closing.ItemsAreAllocations` | services/inventory-service/internal/application/reservations.go:165-192 | The event about a cancelled, expired or shipped reservation lists exactly its allocations, each with the product of its lot, in the order of the lots |
| `LedgerInvariant.ChargedLot` | services/inventory-service/internal/application/service.go:66-107 | A charge for the change of one lot keeps every ledger row equal to the load of its location and within the limit, and cannot fall below zero |
| `LedgerInvariant.ShipCharges` | services/inventory-service/internal/application/reservations.go:213-235 | Shipping a reservation keeps the ledger equal to the lots at every location |
| `LedgerInvariant.MoveCharges` | services/inventory-service/internal/application/service.go:192-227 | A move keeps the ledger equal to the lots at source and destination |
| `EventLog.ReserveLogs` | services/inventory-service/internal/application/reservations.go:138 | Replaying StockReserved adds the requested units to the reserved units of their products |
| `EventLog.ReleaseLogs` | services/inventory-service/internal/application/reservations.go:165-169 | Replaying a cancellation or an expiry takes the released units off again |
| `EventLog.ShipLogs` | services/inventory-service/internal/application/reservations.go:231-238 | Replaying StockShipped rebuilds the quantities of the shipped lots and the reserved units |
| `EventLog.MoveLogs` | services/inventory-service/internal/application/service.go:201-227 | Replaying StockMoved rebuilds both lots of a move, and the capacity events both ledger rows with their revisions |
| `EventLog.AdjustLogs` | services/inventory-service/internal/application/service.go:176-185 | Replaying StockAdjusted rebuilds the adjusted lot |
| `EventLog.ChargeLogged` | services/inventory-service/internal/application/service.go:102-106 | The last capacity event of a location is its ledger row, and its revision counts the events of the location |
| `Talk.TransactionTalk` | services/inventory-service/internal/application/reservations.go:140-170 | The log announces for every reservation its confirmation and at most one closing, and nothing that is not so |
| `AgreementRuns.ClosedExactlyOnce` | services/inventory-service/internal/application/reservations.go:140-239 | In every reachable state the log holds exactly one closing event for a reservation that is cancelled, expired or completed and none for any other, however cancel, expiry and shipment race |
| `Fulfilment.TransactionHonours` | services/inventory-service/internal/application/reservations.go:119-132 | What is announced as reserved is allocated, and what is announced as shipped is what was allocated |
| `Decisions.CancellationDecides` | services/inventory-service/internal/application/reservations.go:140-170 | A cancellation waits for its request, is refused after the shipment, closes a confirmed reservation giving back what it holds, and is otherwise ignored |
| `Decisions.ShipmentDecides` | services/inventory-service/internal/application/reservations.go:171-239 | A shipment takes effect exactly when the reservation is confirmed, not overdue, of that warehouse and every lot it holds has a day of expiry that has not begun; a repeated one is ignored and any other leaves one refusal event with the code of the first check that fails and nothing else |
| `Decisions.PlacementDecides` | services/inventory-service/internal/application/reservations.go:240-262 | An assignment places the lot exactly when the location shown is open, takes it and has room for all of it; otherwise it leaves one refusal event with the code of the first check that fails, nothing at all, or, without an answer, the message to be tried again |
| `StockCommands.ReceiptDecides` | services/inventory-service/internal/application/service.go:108-146 | A receipt takes effect exactly when the quantity is 1 to 1e9, the batch is named, product and warehouse are active and the date is absent or has not begun; then the tables gain one lot with the product, warehouse, quantity, batch and expiry of the receipt and size and storage type of the product, nothing reserved and no location, and one event; otherwise the error of the first check that fails |
| `StockCommands.AdjustmentDecides` | services/inventory-service/internal/application/service.go:162-186 | An adjustment takes effect exactly when the quantity is 0 to 1e9 and at least what is reserved, a reason is given, and what it adds goes to a placed lot whose location is open, takes it and has room; then that lot has the new quantity and no other lot, allocation or reservation changes |
| `StockCommands.AdjustmentFails` | services/inventory-service/internal/application/service.go:162-180 | The error of an adjustment is that of the first check it fails, in the order of the code |
| `StockCommands.MoveDecides` | services/inventory-service/internal/application/service.go:187-228 | A move takes effect exactly when the units are unreserved ones of the lot, the destination is another location that is open, takes the lot and has room; then they stand there as a lot with the product, batch, expiry, size and storage type of the source, and the source has as many less |
| `StockCommands.WriteOffDecides` | services/inventory-service/internal/application/service.go:187-228 | A write-off takes effect exactly when the units are unreserved ones of the lot and a reason is given; then the lot has as many less |
| `StockCommands.TakingFails` | services/inventory-service/internal/application/service.go:187-198 | A move or a write-off that takes nothing, too much, without a reason or to the same location fails with the error for it |
| `StockCommands.RefusalOfLocation` | services/inventory-service/internal/application/service.go:68-96 | The error with which a location refuses a lot is the one for its warehouse, its status, its zone and storage type, or its limit, in this order |
| `StockCommands.ExpiryDecides` | services/inventory-service/internal/application/reservations.go:140-170 | The transaction of the worker closes a confirmed reservation as EXPIRED, gives back exactly what it holds and announces it; it touches nothing of any other |
| `Effects.TransactionEffect` | services/inventory-service/internal/application/reservations.go:14-61 | A transaction keeps the identity of every lot and every decision, and changes at most one reservation, announced by its last event |
| `ReserveDecision.ReserveDecides` | services/inventory-service/internal/application/reservations.go:24-60 | A fresh request is confirmed exactly when it is unexpired, has distinct positive lines and every line is coverable by placed, unexpired, unreserved units; then the allocations sum to every line, otherwise one REJECTED row and one rejection event are all that is added |
| `ReserveDecision.ReserveIsFefo` | services/inventory-service/internal/application/reservations.go:98-132 | In the tables: the first k eligible lots of a line gain at least what any other cover takes from them, and a lot gains only when every lot offered before it, in the order of expiry, creation and id, is fully reserved |
| `Requests.EarlierDatesFirst` | services/inventory-service/internal/application/reservations.go:98-132 | A confirmed request takes units from a lot only when no unreserved unit is left in any lot that serves the line and has an earlier expiry, or the same and an earlier creation, or both the same and a smaller id |
| `Requests.RequestDecides` | services/inventory-service/internal/application/reservations.go:24-139 | A fresh request is confirmed exactly when it has time left and lines, each with a positive quantity, a product of its own and enough unreserved units in placed lots whose day of expiry has not begun; otherwise it is rejected for the reason of the first line that cannot be granted |
| `Requests.OffersServe` | services/inventory-service/internal/application/reservations.go:98 | Exactly the placed lots of the product and warehouse that have unreserved units and whose day of expiry has not begun are offered, each with its unreserved units |
| `Requests.OffersInOrder` | services/inventory-service/internal/application/reservations.go:98 | The offers of a line are in the order of expiry with no date last, then creation, then id |
| `Fefo.FefoDominates` | services/inventory-service/internal/application/reservations.go:119-132 | On every prefix of the order the loop takes at least as much as any other allocation of the same quantity, and exhausts a lot before it touches the next |
| `Fefo.OffersList` | services/inventory-service/internal/application/reservations.go:98 | The query lists eligible lots without repetition; of two lots the one with the earlier expiry comes first, one without expiry last, then the earlier created, then the smaller id |
| `Fefo.OffersComplete` | services/inventory-service/internal/application/reservations.go:98 | The query leaves no eligible lot out |
| `ReserveDecision.PicksCoverLines` | services/inventory-service/internal/application/reservations.go:90-136 | The allocations of an acceptable request sum to each line exactly |
| `Drift.DriftOfRow` | services/inventory-service/internal/application/service.go:87-105 | With rounding errors of at most d per update a row is after k committed updates within k*d of the sum of its changes, and that sum at most limit + 1e-9 + k*d |
| `TableDrift.LedgerDrifts` | services/inventory-service/internal/application/service.go:87-105 | In every run of the tables with rounding charges the row of a location is within revision*d of the summed load of the lots that stand there, which exceeds the limit by at most 1e-9 + revision*d |
| `TableDrift.WithinSlackNothingBreaks` | services/inventory-service/internal/application/service.go:96-98 | In every run of the tables no charge of a location is refused as a violated invariant while the errors of its updates, this one included, stay within the slack |
| `Chains.ServiceRuns` | services/inventory-service/internal/application/service.go:87-105 | Every run of the transactions of the service is such a run of the tables: each transaction, committed or rolled back, is a chain of charges and of changes that move no units |
| `Chains.TransactionIsChain` | services/inventory-service/internal/application/reservations.go:14-61 | One transaction of any kind, on sound tables and honest lookups, is such a chain |
| `Drift.StepBounded` | services/inventory-service/internal/application/service.go:91-100 | One update adds one error to the budget, the clamp adds none, and while k*d <= 1e-7 the only refusal is LOCATION_FULL |
| `Drift.BreaksBeyondBudget` | services/inventory-service/internal/application/service.go:96-98 | Whatever the limit of the location, its k-th update can be refused as a violated invariant exactly when k errors exceed 1e-7 |
| `Repeats.RepeatedCommand` | services/inventory-service/internal/application/reservations.go:67-71 | A decided request, or a successful cancellation, shipment or placement, repeated under a new event id after any further transactions changes no table |
| `Repeats.SettledIsSilent` | services/inventory-service/internal/application/reservations.go:183-185 | A command whose effect the tables already hold leaves them untouched |
| `Repeats.CancellationIsSilent` | services/inventory-service/internal/application/reservations.go:149-154 | The inventory processes a cancellation without any trace exactly when the reservation is closed and not shipped |
| `Expiry.ExpiryDrains` | services/inventory-service/internal/application/reservations.go:263-299 | With n reservations overdue at the last scan, after n/100 passes every confirmed reservation has time left beyond the first scan, whatever other transactions come in between |
| `Expiry.PassDrains` | services/inventory-service/internal/application/reservations.go:271-296 | A full batch takes a hundred off the overdue reservations, a smaller one leaves none that was due |
| `Expiry.CalmConfirmsNothing` | services/inventory-service/internal/application/reservations.go:140-239 | Without a new request no transaction makes a reservation confirmed |
| `Expiry.OnlyDueReservationsExpire` | services/inventory-service/internal/application/reservations.go:271-292 | In every reachable state of the system an EXPIRED reservation is past its expiry |
| `Serial.CommitOrderDecides` | libs/platform/db.go:16-33 | Any interleaving of lock, read, write, commit and abort steps of any number of transactions ends in the state of running the committed ones one at a time in commit order |
| `Serial.Serialisable` | services/inventory-service/internal/application/reservations.go:20-23 | Every step keeps the database equal to the serial run and what each open transaction has read equal to what is committed for its warehouse |
| `Serial.WarehousesCommute` | services/inventory-service/internal/application/reservations.go:286-292 | Transactions of two warehouses in either order give the same lots, reservations and ledger, and append the same two groups of allocations and events |
| `Serial.WriteBack` | services/inventory-service/internal/application/service.go:151-161 | A transaction computed on the rows of its warehouse alone, written back, is the whole transaction |
| `LocalDecisions.AttemptBoth` | services/inventory-service/internal/application/reservations.go:24-38 | On two databases that agree on the rows of the warehouse a transaction has the same outcome, writes the same rows and touches nothing else |
| `Relay.OutboxOrder` | libs/platform/messaging.go:25-56 | Over any run with passes that fail after any prefix: a marked event is in the broker log, the log holds only committed events, and the first occurrences for a warehouse are a prefix of its commit order |
| `Relay.PassesCover` | libs/platform/messaging.go:34-55 | Over any run without new commits, with failing passes, repetitions, rollbacks and new transactions in between, n pending events are all in the log once n/50 passes have completed |
| `Relay.OneSend` | libs/platform/messaging.go:47-50 | A send of the oldest missing row of a warehouse extends the prefix, a repeated one changes nothing |
| `Messaging.Outbox.Publish` | libs/platform/messaging.go:47-54 | The publishing loop, with sends that fail visibly or secretly, is a pass over selected rows whose marks survive only if everything was sent and committed |
| `Messaging.Outbox.Select` | libs/java-common/src/main/java/dev/logicore/common/Events.java:71-74 | The selection is the oldest fifty pending rows in sequence order |
| `Inbox.RedeliveryRefines` | libs/platform/messaging.go:117-129 | Any deliveries with repetitions and failures end in the state of the bare handler run once over the first successful delivery of each event |
| `Messaging.Subscriber.Process` | libs/java-common/src/main/java/dev/logicore/common/Events.java:87-122 | Marker and effects commit together or not at all |
| `Messaging.Subscriber.Consume` | libs/platform/messaging.go:80-109 | The retry loop acknowledges a message only when it is marked or, after at least five failures that changed nothing, dead-lettered |
| `Idempotency.FirstResponseForEver` | libs/platform/db.go:49-87 | After a success every later call with the key gets the first response or, with another body, a conflict, and changes nothing |
| `Idempotency.RunsAreItsEffects` | libs/java-common/src/main/java/dev/logicore/common/Commands.java:21-52 | A run of calls is worth its effective calls run once each without keys, and no key takes effect twice |
| `Idempotency.CallDecides` | libs/platform/db.go:49-87 | A call changes the store exactly when its key has 1 to 128 characters, in Java not all blank, is new, and its action succeeds and commits; then the response is remembered under the key |
| `Commands.Runtime.Run` | libs/platform/db.go:59-86 | One transaction looks the key up, runs the action and remembers its response, or leaves everything as it was |
| `PlacementChoice.ChooseIsBest` | services/placement-service/internal/application/service.go:114-123 | The loop returns an eligible candidate that is the maximum by score and then smallest id |
| `PlacementChoice.OrderDoesNotMatter` | services/placement-service/internal/application/service.go:114-123 | The choice depends on the set of candidates, not on their order |
| `PlacementChoice.NoneIsChosen` | services/placement-service/internal/application/service.go:124-128 | Nothing is chosen exactly when no eligible candidate scores above the floor |
| `PlacementChoice.ExactFitScores` | services/placement-service/internal/domain/scoring.go:18-28 | An eligible candidate that fits without the tolerance scores above 20 and at most 100 |
| `Scoring.ScoredIff` | services/placement-service/internal/domain/scoring.go:18-24 | A candidate is scored exactly when it is an open storage location of the warehouse and storage type with limits, and the load fits next to what is there within 1e-9 |
| `Scoring.ScoreWeighs` | services/placement-service/internal/domain/scoring.go:25-27 | With o the share of the tighter limit that is taken and f the share of the scarcer room that is left, (score - 40 - 30 f + 20 o) (10 + distance) is 300 |
| `Scoring.DistanceCosts` | services/placement-service/internal/domain/scoring.go:27 | Moving a candidate from distance 0 to d costs 30 - 300 / (10 + d) points |
| `Scoring.TenAwayCostsFifteen` | services/placement-service/internal/domain/scoring.go:27 | Ten further away costs exactly fifteen points |
| `Scoring.FillCosts` | services/placement-service/internal/domain/scoring.go:25-27 | At distance 0, with a share g taken in weight and volume and a load that is the share f of its tighter limit, the score is 100 - 30 f - 50 g |
| `Scoring.NearIsNotAll` | services/placement-service/internal/application/service.go:114-123 | An empty location at distance 4 is chosen before one at distance 0 that is a fifth full, in either order |
| `PlacementChoice.FloorIsSafe` | services/placement-service/internal/domain/scoring.go:25-27 | For a storage location the floor hides no plausible candidate exactly when both limits reach a fixed edge |
| `PlacementService.Search` | services/placement-service/internal/application/service.go:114-123 | The search loop returns the best choice, and none exactly when every eligible score is at or below the floor |
| `PlacementService.Jobs.Assign` | services/placement-service/internal/application/service.go:105-134 | Working on a due job cancels it, marks it placed, postpones it, or emits one assignment, to the best candidate for all its units; other jobs stay as they are |
| `PlacementService.Jobs.Handle` | services/placement-service/internal/application/service.go:42-56 | A receipt opens a job once, a rejection reopens any job that is not placed, a placement closes it |
| `JobLife.AssignDecides` | services/placement-service/internal/application/service.go:96-135 | What becomes of a due job: the errors of the lookups, CANCELLED without units, PLACED when the lot stands somewhere, otherwise ASSIGNED to the best location for the load of all its units with one event, or tried again after ten seconds |
| `JobLife.HandleDecides` | services/placement-service/internal/application/service.go:42-56 | A receipt opens a job with nothing done yet, once; a refusal makes one that is not placed due again after three seconds, with the code; a placement closes it; no other job changes |
| `InventoryService.Inventory.ChangeCapacity` | services/inventory-service/internal/application/service.go:66-107 | The in-place ledger update: admission, tolerance, clamp, revision and event, or the error of the first check that fails |
| `InventoryService.Inventory.ReceiveGoods` | services/inventory-service/internal/application/service.go:108-146 | A receipt inserts one unplaced lot that is what the receipt says, expiry included, and announces it, exactly when it is valid, or fails by the first check |
| `InventoryService.Inventory.ChangeStock` | services/inventory-service/internal/application/service.go:147-228 | Adjusting, moving and writing off a lot |
| `InventoryService.Inventory.TakeLine` | services/inventory-service/internal/application/reservations.go:119-132 | The loop over the lots of a line reserves greedily and returns what is missing |
| `InventoryService.Inventory.Reserve` | services/inventory-service/internal/application/reservations.go:62-139 | The nested loops over lines and lots take what the specification takes, or fail with its error |
| `InventoryService.Inventory.Release` | services/inventory-service/internal/application/reservations.go:140-170 | Releasing by cancellation or expiry |
| `InventoryService.Inventory.Ship` | services/inventory-service/internal/application/reservations.go:171-239 | The loop over the allocations deducts them from lots and ledger and lists them in the event |
| `InventoryService.Inventory.Place` | services/inventory-service/internal/application/reservations.go:240-262 | Placing a lot once |
| `InventoryService.Inventory.Handle` | services/inventory-service/internal/application/reservations.go:14-61 | The savepoint: a business refusal undoes the partial work and leaves only its record |
| `InventoryService.Inventory.Transact` | libs/platform/db.go:16-26 | A transaction commits or restores every table, and keeps the tables sound |
| `InventoryService.Inventory.ScanOverdue` | services/inventory-service/internal/application/reservations.go:271-285 | The scan returns distinct confirmed reservations whose expiry has passed, at most a hundred, and all of them when less |
| `InventoryService.Inventory.ExpireOverdue` | services/inventory-service/internal/application/reservations.go:286-296 | A tick of the worker leaves every confirmed reservation with time left or takes a full hundred off the overdue ones |
| `ReservationService.Reservations.HasDuplicate` | services/reservation-service/src/main/java/dev/logicore/reservation/application/ReservationService.java:29-31 | The loop finds out whether a product occurs twice |
| `ReservationService.Reservations.Create` | services/reservation-service/src/main/java/dev/logicore/reservation/application/ReservationService.java:28-52 | A request with lines of at least one unit, of distinct products, and a time of 1 to 1800 seconds is stored as PENDING under its new id with its warehouse, its lines and its expiry, and exactly these are announced |
| `ReservationService.Reservations.Cancel` | services/reservation-service/src/main/java/dev/logicore/reservation/application/ReservationService.java:54-67 | Cancelling is refused for a finished reservation, idempotent for a cancelled one, and otherwise asks the inventory |
| `ReservationService.Reservations.Handle` | services/reservation-service/src/main/java/dev/logicore/reservation/application/ReservationService.java:69-86 | A result is ignored once terminal, and a confirmation does not undo a requested cancellation |
| `ReservationLife.RequestsAreBooked` | services/reservation-service/src/main/java/dev/logicore/reservation/application/ReservationService.java:28-52 | In every run every request to the inventory carries warehouse, lines and expiry of a booking that a client made |
| `ReservationLife.CreateDecides` | services/reservation-service/src/main/java/dev/logicore/reservation/application/ReservationService.java:28-52 | When a booking succeeds, with which error it fails, and what row and event it leaves, in terms of the request |
| `ReservationLife.CancelDecides` | services/reservation-service/src/main/java/dev/logicore/reservation/application/ReservationService.java:54-67 | Which statuses refuse a cancellation, which ignores it, and that any other becomes CANCELLING with one request to the inventory |
| `ReservationLife.HandleDecides` | services/reservation-service/src/main/java/dev/logicore/reservation/application/ReservationService.java:69-86 | Which event gives a reservation which status and reason, and which reservations ignore it |
| `ShipmentService.Shipments.Create` | services/shipment-service/src/main/java/dev/logicore/shipment/application/ShipmentService.java:32-70 | A shipment is created from a confirmed reservation that no other shipment claims |
| `ShipmentService.Shipments.Transition` | services/shipment-service/src/main/java/dev/logicore/shipment/application/ShipmentService.java:72-116 | Every action is allowed in exactly its statuses and emits its commands before the status event |
| `ShipmentService.Shipments.EndShipments` | services/shipment-service/src/main/java/dev/logicore/shipment/application/ShipmentService.java:136-145 | The loop ends every shipment of the reservation that has not been shipped |
| `ShipmentService.Shipments.Handle` | services/shipment-service/src/main/java/dev/logicore/shipment/application/ShipmentService.java:118-147 | StockShipped completes a shipment once; refusals, cancellations and expiries end the others |
| `ShipmentLife.CreateDecides` | services/shipment-service/src/main/java/dev/logicore/shipment/application/ShipmentService.java:32-70 | A shipment is made exactly of a confirmed reservation that no shipment has, with its warehouse and lines |
| `ShipmentLife.TransitionDecides` | services/shipment-service/src/main/java/dev/logicore/shipment/application/ShipmentService.java:72-116 | Each action leads from exactly its statuses to its status, asks the inventory what it has to and then tells the status; from any other it is refused |
| `ShipmentLife.HandleDecides` | services/shipment-service/src/main/java/dev/logicore/shipment/application/ShipmentService.java:118-147 | StockShipped completes its shipment once; a refusal fails, a cancellation or an expiry cancels every shipment of the reservation that is not shipped, with its reason |
| `WarehouseService.Locations.Handle` | services/warehouse-service/src/main/java/dev/logicore/warehouse/application/WarehouseService.java:107-117 | A report moves a row forward only, an administrative block survives it, and an open location shows FULL, PARTIALLY_OCCUPIED or AVAILABLE as the reported load and the limit say |
| `WarehouseService.Locations.SetStatus` | services/warehouse-service/src/main/java/dev/logicore/warehouse/application/WarehouseService.java:90-99 | Unblocking shows FULL, PARTIALLY_OCCUPIED or AVAILABLE as load and limit of the location say; blocking changes nothing but the status |

## Left out

- HTTP routing, JSON, headers, error envelopes, health checks, metrics and tracing: plumbing without effect on the tables.
- Product and audit services, creation of warehouses, zones, racks and locations, list queries: they would only add easy members; sites are a fixed map.
- Syntax checks of identifiers, dates and envelopes: identifiers are abstract, dates are day numbers, and a message that cannot be parsed behaves like one whose handler always fails.
- Hash collisions: equal fingerprints are equal requests, and equal lock keys are equal warehouses.
- Redis mutex of the placement worker: it plays no part in correctness, so any due job may be worked on at any time.
- Dead letters: in `System` nothing is dead-lettered; a delivery that never happens is a step that is never taken.
- The race between an administrative block and a lookup already made: a status is what was read.
- Idempotency.CallDecides: the only blank character of a key is the space; the JVM knows further ones.
- IEEE 754: exact real arithmetic, with rounding only in `Drift`.
- Kafka partitions and consumer offsets: a delivery may be any committed event, which covers every offset and partition order.
- Isolation inside a statement: in `Serial` a transaction reads whole tables of its warehouse one after another while others commit, and its own writes are computed from what it has read.
- Expiry.ExpiryDrains: passes are assumed to reach the database; a failing pass is one that does not happen.
- PlacementService.Jobs.Assign: the choice of the job by its next attempt is left to the scheduler.
- InventoryRules: the `updated_at` columns and the batch of a lot in replies, which nothing reads.
- LocalDecisions.AttemptBoth: a command that names a row of another warehouse is not covered; `Addressing.CommandsAreAddressed` shows that no event of the system is one, and an HTTP change takes the lock of the warehouse of the lot it names.
- Serial.CommitOrderDecides: such a command, or a change of a lot that does not exist, is refused before it gets a session.
- Serial.Serialisable: as `Serial.CommitOrderDecides`.
- Serial.WarehousesCommute: as `LocalDecisions.AttemptBoth`.
- Serial.WriteBack: as `LocalDecisions.AttemptBoth`.
- TableDrift.LedgerDrifts: which charge is refused at the limit may differ from exact arithmetic; a run contains whatever charges were made, and `Chains.ServiceRuns` derives runs from the transactions of exact arithmetic.
