# Warehouse receipt matching

A model of the `add-product` endpoint of the warehouse controller. A stock receipt
(product, warehouse, amount, timestamp) is checked against the Product and Warehouse
tables. It is then matched to an order in `[Order]` for the same product and the exact
amount that was created before the receipt and has no `Product_Warehouse` row yet. The
matched order is marked fulfilled and one priced `Product_Warehouse` record is inserted,
all in one transaction that is rolled back on any exception.

- `Store` (store.dfy) holds the tables as values (`Tables`): sets of product and warehouse
  ids, the orders keyed by `IdOrder`, and the sequence of receipt records. It defines the
  match predicate (`Matches`), the outcome decided before any write (`EarlyExit`), the
  committed write (`Fulfil`) and the store invariant (`Consistent`: at most one record per
  order, distinct generated ids, every record refers to a fulfilled order), with lemmas.
- `Controller` (warehouse_controller.dfy) holds the class `WarehouseDb`, whose fields are the
  tables and the identity counter. `TryAddProduct` runs the statements of the `try` block in
  place. `AddProduct` wraps them in the transaction: it snapshots the tables, runs the
  steps, and restores the snapshot on every exit other than a successful commit.
- `AsWritten` (as_written.dfy) gives the answers of the code exactly as written, where two
  defects make every request that passes the amount check end in a rolled-back 500
  (see "## Findings").

Database exceptions are an input, `fault: FaultPoint`, naming the statement that throws.
The two readings of `DateTime.UtcNow` are the inputs `updateNow` and `insertNow`, and they
need not be equal. Timestamps are integers (ticks). `decimal` prices are `real`s, which
are exact.

The query that finds the order is `SELECT TOP 1` with no `ORDER BY`, so the model lets
*any* matching order be picked (`:|`); the ghost out-parameter `matched` names the one
that was. The query does not test `FulfilledAt IS NULL`. It tests that no
`Product_Warehouse` row references the order. `Matches` follows the code here, not an
"oldest open order first" rule.

## Model

| member | source | states |
|---|---|---|
| `Store.EarlyExit` | Controllers/WarehouseController.cs:26-57 | Each early answer exactly when its condition holds, in the order the code checks them. Product not found comes first, whatever the warehouse or amount. Warehouse not found needs an existing product. Invalid amount (`<= 0`) needs both to exist. No matching order needs a positive amount and no order meeting `Matches`. A fault ends the call only at a statement that is actually reached. No early answer is ever a success. |
| `Store.Fulfil` | Controllers/WarehouseController.cs:59-79 | The committed write. Only the matched order changes, and only its `FulfilledAt`, which becomes the update's timestamp. Products, warehouses and the set of order ids are untouched. Exactly one record is appended and the old records stay as they were. The new record carries the request's warehouse, product and amount, the matched order id, the generated id, and price = order price × amount. |
| `Store.UnreferencedIffNoReceipts` | Controllers/WarehouseController.cs:50 | The LEFT JOIN test "no `Product_Warehouse` row for this order" holds exactly when the order has zero records. |
| `Store.ReceiptsForAppend` | Controllers/WarehouseController.cs:69-76 | Appending a record adds one to the record count of its own order and leaves every other order's count as it was. |
| `Store.FulfilPreservesConsistent` | Controllers/WarehouseController.cs:50-79 | A successful call on a consistent store gives a consistent store, with the identity counter advanced by one. So there is still at most one record per order, the generated ids stay distinct, and every record refers to a fulfilled order. The fulfilled order now has exactly one record. |
| `Store.FulfilRetiresOrder` | Controllers/WarehouseController.cs:50-76 | After a fulfilment, an order matches any request exactly when it matched before and is not the fulfilled order. Re-submitting can never pick that order again, and no other order gains or loses eligibility. |
| `Store.RetryAfterSoleMatchRejected` | Controllers/WarehouseController.cs:50-57 | When the fulfilled order was the only match, sending the same request again is answered "no matching order". |
| `Store.Matches` | Controllers/WarehouseController.cs:50 | The definition is the WHERE clause. The order exists, has the request's product and exactly its amount, has no `Product_Warehouse` row, and was created strictly before the request. `FulfilledAt` is not consulted. |
| `Store.HasMatch` | Controllers/WarehouseController.cs:54-57 | The definition is the condition for `orderReader.Read()` to return a row: some order in `[Order]` satisfies `Matches`. When it is false the answer is "No matching order found". |
| `Store.LineTotal` | Controllers/WarehouseController.cs:69-74 | The definition is `@Price * @Amount` of the insert: the order's unit price times the request's amount, exactly. |
| `Store.Answer` | Controllers/WarehouseController.cs:31-85 | The definition is the endpoint's answer. It is the early answer when there is one. Otherwise it is `Ok` with the next identity value when no statement throws, and `Fault` when one does. `AddProduct` is proved to answer exactly this. |
| `Controller.WarehouseDb.TryAddProduct` | Controllers/WarehouseController.cs:29-80 | The try block run in place. An early answer from `EarlyExit` writes nothing. Otherwise some order satisfying `Matches` is picked, and a fault after the pick answers `Fault`. The partial write left for the rollback is stated per fault point. A fault at the update leaves the tables as they were. A fault at the insert leaves the order's `FulfilledAt` set and no new record. A fault at the commit leaves the tables at `Fulfil(...)`, the same as a success. With no fault the answer is `Ok` with the identity counter's value. The counter is unchanged after an early answer or a fault at the update. It advances by one on a success or a fault at the commit. After a fault at the insert it may have advanced by one or not. |
| `AsWritten.EarlyExitAsWritten` | Controllers/WarehouseController.cs:50-57 | The answers with the order query as written. They agree with `EarlyExit` on every answer decided before the query. Wherever `EarlyExit` would match or answer "no matching order", this answers `Fault`. It never lets a request reach a write. |
| `AsWritten.AnswerWithOpenReader` | Controllers/WarehouseController.cs:54-66 | The answers with the query corrected (`o.IdOrder`, `o.Price`) but the update issued while the order reader is open. Every early answer is `EarlyExit`'s. Where `EarlyExit` lets the request reach the writes, the answer is `Fault`. It is never `Ok`. |
| `AsWritten.OpenReaderLosesEverySuccess` | Controllers/WarehouseController.cs:54-85 | For every store, request and fault point, the open reader changes exactly the intended answers that are `Ok`, and each becomes `Fault`. Every other answer is the same as the intended one. |
| `AsWritten.AmbiguousQueryExample` | Controllers/WarehouseController.cs:50-54 | For product 7, warehouse 2 and a matching order 50, the intended query finds the order, but the query as written answers `Fault`. |
| `AsWritten.OpenReaderExample` | Controllers/WarehouseController.cs:54-85 | On the same store with no database fault, the intended call reaches the writes, but with the reader left open the answer is `Fault`. |
| `Controller.WarehouseDb.AddProduct` | Controllers/WarehouseController.cs:22-89 | The endpoint with its transaction. The answers are the same as `TryAddProduct`'s, and `Fault` for a failure to open the connection or begin the transaction (`AtOpen`). Every answer other than `Ok`, including a fault after the update or after the insert, leaves all four tables exactly as they were (all or nothing). The answer is `Answer(...)` of the store before the call. On `Ok` the tables are `Fulfil(...)` and the matched order has exactly one record. The store invariant is kept. The identity counter is unchanged when no insert was attempted. It advances by one on a success or a fault at the commit. After a failed insert it may have advanced by one or not. |

## Left out

- HTTP routing and status codes: the answers are the `Outcome` datatype (404 for
  `ProductNotFound`/`WarehouseNotFound`, 400 for `InvalidAmount`/`NoMatchingOrder`, 200 for
  `Ok`, 500 for `Fault`). The exception's message text is not carried.
- SqlClient, the connection string and command objects: each query is a read of the
  abstract tables, and a `FaultPoint` says which statement throws. `Store.EarlyExit`,
  `Store.Fulfil` and `Controller.WarehouseDb.AddProduct` model the INTENDED query and
  update. As written, neither `NoMatchingOrder` nor `Ok` can be reached: the order query
  names `IdOrder` without a table prefix although both joined tables have that column,
  and the update runs while the order reader is still open on a connection without
  multiple active result sets. See "## Findings"; the module `AsWritten` models the
  code as written. The unqualified `Price` fails in either case. If `[Order]` has a
  `Price` column, as the model assumes, `Price` is ambiguous just as `IdOrder` is, and
  `ExecuteReader` (line 54) throws. If it does not, `Price` binds to `pw.Price`, which is
  NULL on the rows that `pw.IdProductWarehouse IS NULL` keeps, and the `(decimal)` cast at
  line 60 throws. The intended query is `SELECT TOP 1 o.IdOrder, o.Price ...`.
- Store.Matches: the request's `CreatedAt` is passed at line 53 as a SQL `datetime`
  parameter, which rounds it to 1/300 s before `o.CreatedAt < @CreatedAt` is evaluated.
  The model compares exact ticks. So an order created at 10:00:00.000 matches a request
  at 10:00:00.001 here, while the source answers "No matching order found". The rounding
  of .NET `DateTime` to SQL `datetime` goes through floating point and depends on the
  column's type, which is not in the repository.
- A failure of `connection.Open()` (line 26) or of `BeginTransaction()` (line 27) happens
  outside the `try`. It escapes as an unhandled exception rather than the 500 written in
  the `catch`. `AtOpen` covers both, and both are `Fault` here.
- A fault reported by `Commit` itself is modelled as a clean rollback. The "committed but
  acknowledgement lost" case is not modelled.
- Identity values: `nextId` is the value the next completed insert receives. Rolled-back
  identity values are never given back. A completed insert followed by a failed commit
  leaves `nextId` advanced, and a failed INSERT may or may not have used up a value (both
  are allowed), so ids can have gaps. The constructor starts the counter at 1; the
  column's seed and increment are not in the repository, so an `IDENTITY(1,1)` column is
  assumed.
- Controller.WarehouseDb.AddProduct: its `Ok(old(nextId))` assumes the identity column
  hands out `nextId` to the insert. Gaps that arise between calls are not modelled, such
  as values cached and lost at a server restart, or a reseed. Between calls the counter
  changes only through this endpoint.
- AddProductProcedure (lines 91-120): it only calls the stored procedure
  `AddProductToWarehouse`. That procedure's body is not in the repository, so it is not
  part of this model.
- Concurrency and isolation: the code takes no locks and sets no isolation level. The model
  covers one call at a time. Exclusivity between concurrent calls is not claimed.
- Oldest-first matching: the query has no `ORDER BY`, so the model does not claim FIFO.
  Which matching order is picked is left open.
- Integer widths: request fields, ids and amounts are C# `int`. Here they are unbounded.
  An overflow of the identity column or of `Price * Amount` in SQL would raise an
  exception, which is covered only as an `AtInsert` fault.

## Findings

| source | as written | input that shows it | evidently intended | confidence | as-written member | corrected member |
|---|---|---|---|---|---|---|
| Controllers/WarehouseController.cs:50 | `SELECT TOP 1 IdOrder, Price FROM [Order] o LEFT JOIN Product_Warehouse pw ...`: `IdOrder` is unqualified. The ON clause and the insert at line 69 show that both tables have that column, so SQL Server refuses the query as ambiguous, `ExecuteReader` (line 54) throws, and the catch answers 500. | product 7, warehouse 2, amount 10, one order 50 for product 7 and 10 units created before the request | `SELECT TOP 1 o.IdOrder, o.Price ...` (the unqualified `Price` fails too: it is ambiguous, or NULL from `pw` and the cast at line 60 throws): the matching order is found, or "No matching order found" | high, not executed | `AsWritten.EarlyExitAsWritten` | `Store.EarlyExit` |
| Controllers/WarehouseController.cs:54-66 | `updateCmd.ExecuteNonQuery()` runs inside the `using` of `orderReader`, while the reader is open. The connection string at line 11 does not enable multiple active result sets, so SqlClient refuses the command, and the catch rolls back and answers 500. | the same request and store, with the query corrected | read the id and price, close the reader, then update and insert: the call answers 200 with the new record's id | high, not executed | `AsWritten.AnswerWithOpenReader` | `Controller.WarehouseDb.AddProduct` |

