# Order lifecycle of the ABC Retail order service, in Dafny

This project models the order-status core of the ABC Retail web application.
It covers three parts:

- the eight-status lifecycle of an `Order`: the transition guard
  `CanUpdateStatus`, the status catalogue `GetAllStatuses`, the badge class
  shown for each status, and the default status `"Pending"`;
- the order table behind `OrderService`: lookup (`null` when the row is
  missing), full replace, delete, the listing and the filter by status, and
  the defaulting field readers;
- the guarded status update `UpdateOrderStatusAsync`. It reads the order
  from the `"Order"` partition, checks the transition, and replaces the row
  with only the status changed.

The storage service is abstracted to a map from (partition key, row key) to
an entity. An entity is a partial map from property name to stored value.

Modules, one per concern:

- `Results`: `Option` stands for C# `null` and `Result` for a thrown exception.
- `Statuses`: the `Status` type. It has eight constructors plus
  `Unknown(name)` for every other string. The module also holds the
  transition table in the source's string form, the enumerated guard
  `CanTransition`, the catalogue, the badge mapping, and lifecycle facts:
  no self-loops, terminal states, and no cycles.
- `TableValues`: stored value types, `int32`, `DateTime` as ticks, and the
  table key.
- `Orders`: the `Order` record. Its status is kept as a nullable string,
  as the source keeps it. The module has the per-order guard and badge, and
  the create path's field assignments.
- `Entities`: the defaulting readers, the entity-to-order read and the
  order-to-entity write.
- `OrderService`: the store operations and the guarded update.

Behaviour of the code that a reader may not expect:

- The code has no separate "not found" error. A missing order raises the
  same invalid-transition exception as a refused move. That exception's
  "from" status is then `null`, modelled as `InvalidTransition(None, to)`.
- A stored status is any string, not always one of the eight.
- A `null` stored status makes the guard's dictionary lookup throw. This is
  `NullStatus`; the guard does not return false here.
- `UpdateOrderStatusAsync` returns nothing. It does not return the updated
  order.
- The create path does not write the table. It hands the order to a queue
  (see Left out).
- A row without an OrderDate reads as DateTime.MinValue. The guarded update
  writes that date back, but the table service stores no date before
  1 January 1601. So the status of such a row can never be changed by
  `UpdateOrderStatusAsync`: the write is refused and the row stays as it was.
- `GetOrdersByStatusAsync(null)` uses C# string equality, so it returns
  exactly the orders whose status is null.

## Model

| member | source | states |
|---|---|---|
| `Statuses.CanTransition` | ABC_Retail_Project/Models/Order.cs:37-50 | An allowed move starts and ends at one of the eight statuses. It never stays in place and never leaves Cancelled, Completed or Refunded. It strictly raises the lifecycle rank. |
| `Statuses.CanTransitionMatchesTable` | ABC_Retail_Project/Models/Order.cs:37-50 | For every pair of strings, the guard allows the move exactly when the current name is a key of the table and the requested name is listed under it. Both directions are proved. |
| `Statuses.Parse` | ABC_Retail_Project/Models/Order.cs:49-50 | Every stored string denotes one status and converts back to the same string. It is Unknown exactly when it is not one of the eight table keys. |
| `Statuses.NoSelfLoops` | ABC_Retail_Project/Models/Order.cs:39-46 | No status, known or unknown, may move to itself. |
| `Statuses.TerminalIffNoMoves` | ABC_Retail_Project/Models/Order.cs:39-49 | Among the eight, Cancelled, Completed and Refunded are exactly the statuses with no allowed target. An unknown status has no allowed target either. |
| `Statuses.AllStatuses` | ABC_Retail_Project/Models/Order.cs:53-66 | The catalogue has eight distinct names. Its members are exactly the table's keys, and it contains every transition target. |
| `Statuses.PathRankGrows` | ABC_Retail_Project/Models/Order.cs:37-47 | Along any chain of allowed moves, the lifecycle rank grows by at least one per move. |
| `Statuses.PathIsAcyclic` | ABC_Retail_Project/Models/Order.cs:37-47 | A chain of allowed moves never revisits a status and holds at most six statuses. |
| `Statuses.LongestPath` | ABC_Retail_Project/Models/Order.cs:39-45 | Pending, Processing, Shipped, Delivered, Returned, Refunded is a chain of allowed moves, so the bound of six is reached. |
| `Statuses.BadgeClass` | ABC_Retail_Project/Models/Order.cs:68-82 | The light badge is given exactly to statuses outside the eight. |
| `Statuses.BadgeClassMatchesSwitch` | ABC_Retail_Project/Models/Order.cs:70-81 | The mapping is total. Each of the eight names gets its listed class, and any other string gets `badge badge-light`. |
| `Statuses.BadgeClassesDistinct` | ABC_Retail_Project/Models/Order.cs:72-79 | Two different known statuses share a badge only when they are Delivered and Completed. |
| `Orders.CanUpdateStatus` | ABC_Retail_Project/Models/Order.cs:35-51 | A null current status throws. Otherwise the result is true exactly when the pair is an edge of the string table, and never for the order's own status. The order itself is a value and is left unchanged. |
| `Orders.StatusBadgeClass` | ABC_Retail_Project/Models/Order.cs:68-82 | An order whose status is null or outside the eight gets the light badge. A table name gets its listed class. |
| `Orders.CreateOrder` | ABC_Retail_Project/Controllers/OrderController.cs:65-68 | A created order sits at ("Order", the fresh row key), has status "Pending" and is dated now. Every other field comes from the form. |
| `Orders.NewOrderMoves` | ABC_Retail_Project/Models/Order.cs:33-39 | A new order may move to Processing or Cancelled and to nothing else. |
| `Entities.GetString` | ABC_Retail_Project/Models/OrderService.cs:187-192 | A string property reads as null when absent and as its value when it is a string. It throws when the property holds another type. |
| `Entities.QuantityFromEntity` | ABC_Retail_Project/Models/OrderService.cs:102-112 | A missing Quantity reads as 0, and so does one stored as another type. A stored int reads as itself. |
| `Entities.ProductIdFromEntity` | ABC_Retail_Project/Models/OrderService.cs:114-124 | A missing ProductId reads as the empty string, and so does one stored as another type. A stored string reads as itself. |
| `Entities.OrderDateFromEntity` | ABC_Retail_Project/Models/OrderService.cs:126-136 | A missing OrderDate reads as DateTime.MinValue, and so does one stored as another type. A stored date reads as itself. |
| `Entities.ReadOrder` | ABC_Retail_Project/Models/OrderService.cs:183-195 | A read fails exactly when CustomerId or Status holds a non-string, and it reports CustomerId first. On success the order carries the row's keys and the stored Status string, or null. Its CustomerId comes from the string getter, and its ProductId, Quantity, TotalAmount and OrderDate come from their readers. |
| `Entities.ToEntity` | ABC_Retail_Project/Models/OrderService.cs:205-213 | The written entity holds only the order's six properties. ProductId, Quantity and OrderDate are always present. |
| `Entities.ReadToEntity` | ABC_Retail_Project/Models/OrderService.cs:183-213 | Reading back a written order gives that order unchanged. |
| `Entities.MissingFieldsDefault` | ABC_Retail_Project/Models/OrderService.cs:102-136 | Each missing property reads as its default, independently of the others: ProductId as "", Quantity as 0, OrderDate as DateTime.MinValue, and CustomerId and TotalAmount as null. |
| `Entities.WriteBackOfRead` | ABC_Retail_Project/Models/OrderService.cs:205-213 | Writing back an order that was read keeps every property the readers took verbatim. Defaulted properties are stored as their defaults, and properties outside the six are dropped. A missing TotalAmount stays missing (see Left out). |
| `OrderService.GetOrder` | ABC_Retail_Project/Models/OrderService.cs:176-201 | The lookup returns null exactly when no row has the key. Otherwise it returns the row's order, or the reader's exception. |
| `OrderService.UpdateOrder` | ABC_Retail_Project/Models/OrderService.cs:203-216 | A replace fails on a missing row, and on an order dated before 1 January 1601, which the table service does not store. Otherwise the row becomes exactly the written entity of the order, so stored properties outside the six are dropped. No other row changes, and a later lookup returns exactly the written order. |
| `OrderService.DeleteOrder` | ABC_Retail_Project/Models/OrderService.cs:218-221 | After a delete the key is gone and a lookup returns null. Every other row is unchanged. |
| `OrderService.UpdateOrderStatus` | ABC_Retail_Project/Models/OrderService.cs:223-243 | The update succeeds exactly when ("Order", id) holds a readable order whose status may move to the request and whose date the table can store. A failure leaves the table unchanged, and each failure raises its own exception: a missing order the invalid-transition error with a null "from", an unreadable row the reader's exception, a null status `NullStatus`, a refused move the invalid-transition error carrying the stored status and the request, and an unstorable date the replace's refusal. On success the row is replaced by the written entity of the old order with only the status changed, so it reads back as that order, and no other row changes. |
| `OrderService.UpdateFollowsTable` | ABC_Retail_Project/Models/OrderService.cs:227-231 | A successful update moves the order's status along an edge of the string transition table. |
| `OrderService.UpdateUsesOrderPartition` | ABC_Retail_Project/Models/OrderService.cs:227 | The update looks only in partition "Order". A row with the same id in another partition neither satisfies the lookup nor changes. |
| `OrderService.EditPathSkipsGuard` | ABC_Retail_Project/Controllers/OrderController.cs:115-127 | The guarded update refuses to move a Completed order back to Pending. When the order's date is storable, the edit path's full replace writes that move and reads it back. |
| `OrderService.UndatedOrderNeverUpdates` | ABC_Retail_Project/Models/OrderService.cs:126-136 | A stored row without an OrderDate can never have its status changed by the guarded update. The update raises and the table is unchanged. |
| `OrderService.UpdateShrinksHeadroom` | ABC_Retail_Project/Models/OrderService.cs:223-243 | Each successful guarded update strictly lowers `Headroom`, an upper bound on the further moves the order can take: at most that many remain, and a terminal or undated order may have none left. |
| `OrderService.RunStatusUpdates` | ABC_Retail_Project/Models/OrderService.cs:223-243 | Over any series of update requests for one order, successes are bounded by the order's remaining lifecycle. Rows under other keys never change. |
| `OrderService.AtMostFiveUpdates` | ABC_Retail_Project/Models/OrderService.cs:223-243 | A series of guarded updates to one order, with no other write to the row in between, succeeds at most five times. The edit path can reset the status and so is not covered. |
| `OrderService.GetOrders` | ABC_Retail_Project/Models/OrderService.cs:138-159 | The listing succeeds exactly when every row reads. It then holds one order per row, in row order. A failing listing reports the read exception of the first failing row, in enumeration order, as the loop without a catch does. |
| `OrderService.ListingMatchesLookup` | ABC_Retail_Project/Models/OrderService.cs:141-156 | Over an enumeration of the table, each stored order appears in the listing exactly as a lookup of its key returns it. |
| `OrderService.FilterByStatus` | ABC_Retail_Project/Models/OrderService.cs:248 | The result holds exactly the orders whose status equals the one asked for, under C# string equality. A null query matches exactly the orders with a null status. |
| `OrderService.FilterConcat` | ABC_Retail_Project/Models/OrderService.cs:248 | Filtering commutes with concatenation, so the kept orders stay in listing order. |
| `OrderService.FilterIdempotent` | ABC_Retail_Project/Models/OrderService.cs:248 | Filtering twice by the same status is filtering once. |
| `OrderService.FilterCounts` | ABC_Retail_Project/Models/OrderService.cs:248 | A matching order keeps every copy and any other order keeps none. |
| `OrderService.GetOrdersByStatus` | ABC_Retail_Project/Models/OrderService.cs:245-249 | The filtered listing fails exactly when the listing fails, with the same exception. Otherwise it is the listing filtered by status, so FilterConcat and FilterCounts give its listing order and the count of each order. |

## Left out

- Storage clients, `CreateIfNotExists`, and console logging are foreign I/O. The table is a map, and the logging has no effect on results.
- The ETag is not modelled, so there is no concurrency. Operations run one after another, and the `ETag.All` overwrite is a plain replace.
- `Timestamp` is left out. The service maintains it.
- `TotalAmount` conversion between decimal and double is floating point. The model carries the stored TotalAmount value through the read and the write unchanged.
- `GetTotalAmountFromEntity` (OrderService.cs:77-100) is left out because it parses decimals and converts from floating point.
- `AddOrderToQueueAsync` and the queue message are left out. They are JSON serialisation for an external consumer, so the create path stops at the fields it assigns.
- `FormattedTotalAmount` and `FormattedOrderDate` are left out. They depend on culture-specific number and date formatting.
- `OrderService.GetOrdersByStatus`: the customer and product join of `GetOrdersWithDetailsAsync` is not modelled. Loading customers and products can fail and only fills display fields, and the Customer type is not part of this model.
- `OrderService.GetOrders`: the order in which the table service enumerates rows is a parameter, the row sequence. `IsQueryOf` ties that sequence to a table.
- `OrderService.DeleteOrder`: deleting a missing row is taken to succeed without change, as the table client does for a missing entity.
- `Entities.ToEntity`: a null CustomerId or Status is taken as not stored, because the table does not keep null properties. A null ProductId from the edit form is not modelled: the record's ProductId is never null. A missing TotalAmount stays missing in the written row, where the source writes 0 as a double. The model carries TotalAmount as an unconverted stored value, so it cannot express the decimal zero.
- `OrderService.UpdateOrder`: when the row is missing and the date is also unstorable, the model reports the missing row. Which of the two failures the service reports is not modelled.
- `Entities.OrderDateFromEntity`: dates stored with an offset and plain dates are one value kind. The library converts the first into the second.
- `Orders.CanUpdateStatus`: a null requested status is not modelled. The list lookup would refuse it like any other string outside the table.
- Storage failures other than a missing row and an unstorable date are not modelled. These are network errors and a non-404 failure of the lookup.
- Controllers, dependency injection, view models, and the product and contract services are not modelled. They are HTTP and UI plumbing.
