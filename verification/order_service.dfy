/**
 * The order service over an abstract table: a map from (partition key,
 * row key) to the stored entity. Lookup, full replace, delete, the guarded
 * status update, the full listing and the filter by status.
 *
 * Operations are sequential; each returns the table it leaves behind.
 */
module OrderService {
  import opened Results
  import opened Statuses
  import opened TableValues
  import opened Orders
  import opened Entities

  type Store = map<TableKey, Entity>

  /** The order stored under the key; None (null) when the row does not exist. */
  function GetOrder(store: Store, partitionKey: string, rowKey: string): (r: Result<Option<Order>, OrderError>)
    ensures r == Ok(None) <==> TableKey(partitionKey, rowKey) !in store
    ensures r.Err? ==> TableKey(partitionKey, rowKey) in store
    ensures r.Ok? && r.value.Some? ==>
              && r.value.value.Key() == TableKey(partitionKey, rowKey)
              && ReadOrder(TableKey(partitionKey, rowKey), store[TableKey(partitionKey, rowKey)]) == Ok(r.value.value)
    ensures TableKey(partitionKey, rowKey) in store ==>
              (r.Ok? <==> ReadOrder(TableKey(partitionKey, rowKey), store[TableKey(partitionKey, rowKey)]).Ok?)
    ensures r.Err? ==>
              ReadOrder(TableKey(partitionKey, rowKey), store[TableKey(partitionKey, rowKey)]) == Err(r.error)
  {
    var k := TableKey(partitionKey, rowKey);
    if k !in store then Ok(None)
    else
      match ReadOrder(k, store[k])
      case Err(err) => Err(err)
      case Ok(o) => Ok(Some(o))
  }

  /**
   * Full replace of an existing row with the order's six properties. A
   * replace of a row that does not exist fails, and so does one whose date
   * is earlier than the table service stores.
   */
  function UpdateOrder(store: Store, o: Order): (r: Result<Store, OrderError>)
    ensures r.Ok? <==> o.Key() in store && Storable(o.orderDate)
    ensures r.Err? ==> r.error == if o.Key() !in store then EntityNotFound(o.Key()) else UnstorableDate(o.Key())
    ensures r.Ok? ==> r.value.Keys == store.Keys
    ensures r.Ok? ==> r.value[o.Key()] == ToEntity(o)
    ensures r.Ok? ==> forall k :: k in store && k != o.Key() ==> r.value[k] == store[k]
    ensures r.Ok? ==> GetOrder(r.value, o.partitionKey, o.rowKey) == Ok(Some(o))
  {
    if o.Key() !in store then Err(EntityNotFound(o.Key()))
    else if !Storable(o.orderDate) then Err(UnstorableDate(o.Key()))
    else
      ReadToEntity(o);
      Ok(store[o.Key() := ToEntity(o)])
  }

  /** Removes the row; deleting a row that does not exist changes nothing. */
  function DeleteOrder(store: Store, partitionKey: string, rowKey: string): (r: Store)
    ensures TableKey(partitionKey, rowKey) !in r
    ensures GetOrder(r, partitionKey, rowKey) == Ok(None)
    ensures r.Keys == store.Keys - {TableKey(partitionKey, rowKey)}
    ensures forall k :: k in r ==> r[k] == store[k]
  {
    store - {TableKey(partitionKey, rowKey)}
  }

  /** The table after a call, and the exception it raised if any. */
  datatype Reply = Reply(store: Store, error: Option<OrderError>)

  /**
   * The read order at ("Order", orderId) may move to newStatus, and its date
   * can be written back.
   */
  predicate Permits(store: Store, orderId: string, newStatus: string) {
    var read := GetOrder(store, OrderPartition, orderId);
    && read.Ok? && read.value.Some?
    && read.value.value.status.Some?
    && CanTransition(Parse(read.value.value.status.value), Parse(newStatus))
    && Storable(read.value.value.orderDate)
  }

  /**
   * The guarded status update: read the order from the "Order" partition,
   * check the transition, and replace the row with only the status changed.
   * A missing order, a refused move or a refused write raises and writes
   * nothing.
   */
  function UpdateOrderStatus(store: Store, orderId: string, newStatus: string): (r: Reply)
    ensures r.error.None? <==> Permits(store, orderId, newStatus)
    ensures r.error.Some? ==> r.store == store
    ensures TableKey(OrderPartition, orderId) !in store ==>
              r.error == Some(InvalidTransition(None, newStatus))
    ensures GetOrder(store, OrderPartition, orderId).Err? ==>
              r.error == Some(GetOrder(store, OrderPartition, orderId).error)
    ensures var read := GetOrder(store, OrderPartition, orderId);
            read.Ok? && read.value.Some? && read.value.value.status.None? ==>
              r.error == Some(NullStatus)
    ensures var read := GetOrder(store, OrderPartition, orderId);
            && read.Ok? && read.value.Some? && read.value.value.status.Some?
            && !CanTransition(Parse(read.value.value.status.value), Parse(newStatus)) ==>
              r.error == Some(InvalidTransition(read.value.value.status, newStatus))
    ensures var read := GetOrder(store, OrderPartition, orderId);
            && read.Ok? && read.value.Some? && read.value.value.status.Some?
            && CanTransition(Parse(read.value.value.status.value), Parse(newStatus))
            && !Storable(read.value.value.orderDate) ==>
              r.error == Some(UnstorableDate(TableKey(OrderPartition, orderId)))
    ensures r.error.None? ==>
              && r.store.Keys == store.Keys
              && (forall k :: k in store && k != TableKey(OrderPartition, orderId) ==> r.store[k] == store[k])
    ensures r.error.None? ==>
              r.store[TableKey(OrderPartition, orderId)]
              == ToEntity(GetOrder(store, OrderPartition, orderId).value.value.(status := Some(newStatus)))
    ensures r.error.None? ==>
              var before := GetOrder(store, OrderPartition, orderId).value.value;
              GetOrder(r.store, OrderPartition, orderId) == Ok(Some(before.(status := Some(newStatus))))
  {
    match GetOrder(store, OrderPartition, orderId)
    case Err(err) => Reply(store, Some(err))
    case Ok(None) => Reply(store, Some(InvalidTransition(None, newStatus)))
    case Ok(Some(order)) =>
      match CanUpdateStatus(order, newStatus)
      case Err(err) => Reply(store, Some(err))
      case Ok(false) => Reply(store, Some(InvalidTransition(order.status, newStatus)))
      case Ok(true) =>
        match UpdateOrder(store, order.(status := Some(newStatus)))
        case Err(err) => Reply(store, Some(err))
        case Ok(written) => Reply(written, None)
  }

  /**
   * Every successful status update moves the order along an edge of the
   * transition table.
   */
  lemma UpdateFollowsTable(store: Store, orderId: string, newStatus: string)
    requires UpdateOrderStatus(store, orderId, newStatus).error.None?
    ensures var before := GetOrder(store, OrderPartition, orderId).value.value;
            var after := GetOrder(UpdateOrderStatus(store, orderId, newStatus).store, OrderPartition, orderId).value.value;
            && before.status.Some? && after.status == Some(newStatus)
            && before.status.value in TransitionTable
            && newStatus in TransitionTable[before.status.value]
  {
  }

  /**
   * The update only ever reads the "Order" partition: an order stored under
   * the same row key in another partition neither helps nor is touched.
   */
  lemma UpdateUsesOrderPartition(store: Store, orderId: string, newStatus: string, partition: string)
    requires partition != OrderPartition
    ensures var r := UpdateOrderStatus(store, orderId, newStatus);
            && (TableKey(OrderPartition, orderId) !in store ==> r.error.Some?)
            && (TableKey(partition, orderId) in store ==>
                  TableKey(partition, orderId) in r.store
                  && r.store[TableKey(partition, orderId)] == store[TableKey(partition, orderId)])
  {
  }

  /**
   * The edit path writes whatever status it is given: a Completed order can
   * be put back to Pending through UpdateOrder, though the guarded update
   * refuses exactly that move.
   */
  lemma EditPathSkipsGuard(store: Store, orderId: string)
    requires GetOrder(store, OrderPartition, orderId).Ok?
    requires GetOrder(store, OrderPartition, orderId).value.Some?
    requires GetOrder(store, OrderPartition, orderId).value.value.status == Some("Completed")
    ensures var o := GetOrder(store, OrderPartition, orderId).value.value;
            && UpdateOrderStatus(store, orderId, "Pending").error == Some(InvalidTransition(Some("Completed"), "Pending"))
            && (Storable(o.orderDate) ==>
                  && UpdateOrder(store, o.(status := Some("Pending"))).Ok?
                  && GetOrder(UpdateOrder(store, o.(status := Some("Pending"))).value, OrderPartition, orderId)
                     == Ok(Some(o.(status := Some("Pending")))))
  {
  }

  /**
   * A row without an OrderDate reads as DateTime.MinValue, which the write
   * back cannot store: its status can never be changed by the guarded update.
   */
  lemma UndatedOrderNeverUpdates(store: Store, orderId: string, newStatus: string)
    requires TableKey(OrderPartition, orderId) in store
    requires "OrderDate" !in store[TableKey(OrderPartition, orderId)]
    ensures UpdateOrderStatus(store, orderId, newStatus).error.Some?
    ensures UpdateOrderStatus(store, orderId, newStatus).store == store
  {
  }

  /**
   * An upper bound on the successful status updates the order at
   * ("Order", orderId) can still take: at most this many. It is 0 when the
   * order is missing, unreadable, null or unknown; a terminal or undated
   * order may have none left although its bound is positive.
   */
  function Headroom(store: Store, orderId: string): (h: nat)
    ensures h <= MaxRank
  {
    match GetOrder(store, OrderPartition, orderId)
    case Ok(Some(o)) =>
      if o.status.Some? && Parse(o.status.value).IsKnown()
      then MaxRank - Rank(Parse(o.status.value))
      else 0
    case _ => 0
  }

  /** A successful status update uses up at least one unit of headroom. */
  lemma UpdateShrinksHeadroom(store: Store, orderId: string, newStatus: string)
    requires UpdateOrderStatus(store, orderId, newStatus).error.None?
    ensures Headroom(UpdateOrderStatus(store, orderId, newStatus).store, orderId) < Headroom(store, orderId)
  {
  }

  /**
   * A caller's series of status requests for one order, each raising or
   * succeeding on its own: the table after the series and how many
   * requests succeeded.
   */
  function RunStatusUpdates(store: Store, orderId: string, requests: seq<string>): (r: (Store, nat))
    ensures r.1 <= |requests|
    ensures r.1 <= Headroom(store, orderId)
    ensures r.0.Keys == store.Keys
    ensures forall k :: k in store && k != TableKey(OrderPartition, orderId) ==> r.0[k] == store[k]
    decreases |requests|
  {
    if |requests| == 0 then (store, 0)
    else
      var reply := UpdateOrderStatus(store, orderId, requests[0]);
      if reply.error.Some? then
        RunStatusUpdates(store, orderId, requests[1..])
      else
        UpdateShrinksHeadroom(store, orderId, requests[0]);
        var rest := RunStatusUpdates(reply.store, orderId, requests[1..]);
        (rest.0, rest.1 + 1)
  }

  /**
   * A series of guarded updates, with no other write to the row in between,
   * succeeds at most five times.
   */
  lemma AtMostFiveUpdates(store: Store, orderId: string, requests: seq<string>)
    ensures RunStatusUpdates(store, orderId, requests).1 <= MaxRank
  {
  }

  /** The rows a table query yields, as (key, entity) pairs in the service's order. */
  type Rows = seq<(TableKey, Entity)>

  /** The rows are an enumeration of the store: each row once, with its stored entity. */
  predicate IsQueryOf(rows: Rows, store: Store) {
    && (forall i :: 0 <= i < |rows| ==> rows[i].0 in store && store[rows[i].0] == rows[i].1)
    && (forall i, j :: 0 <= i < j < |rows| ==> rows[i].0 != rows[j].0)
    && (forall k :: k in store ==> exists i :: 0 <= i < |rows| && rows[i].0 == k)
  }

  /**
   * All orders, in the order the query yields the rows. One row whose
   * CustomerId or Status is not a string makes the whole listing throw,
   * with the exception of the first such row.
   */
  function GetOrders(rows: Rows): (r: Result<seq<Order>, OrderError>)
    ensures r.Ok? <==> forall i :: 0 <= i < |rows| ==> ReadOrder(rows[i].0, rows[i].1).Ok?
    ensures r.Ok? ==> |r.value| == |rows|
    ensures r.Ok? ==> forall i :: 0 <= i < |rows| ==> ReadOrder(rows[i].0, rows[i].1) == Ok(r.value[i])
    ensures r.Err? ==>
              exists i :: 0 <= i < |rows| && ReadOrder(rows[i].0, rows[i].1) == Err(r.error)
                && forall j :: 0 <= j < i ==> ReadOrder(rows[j].0, rows[j].1).Ok?
  {
    if |rows| == 0 then Ok([])
    else
      match ReadOrder(rows[0].0, rows[0].1)
      case Err(err) => Err(err)
      case Ok(o) =>
        match GetOrders(rows[1..])
        case Err(err) => Err(err)
        case Ok(os) => Ok([o] + os)
  }

  /** Listing an enumeration of the store yields each stored order exactly as a lookup does. */
  lemma ListingMatchesLookup(store: Store, rows: Rows, k: TableKey)
    requires IsQueryOf(rows, store) && GetOrders(rows).Ok?
    ensures k in store ==>
              exists i :: 0 <= i < |rows|
                && GetOrder(store, k.partitionKey, k.rowKey) == Ok(Some(GetOrders(rows).value[i]))
  {
    if k in store {
      var i :| 0 <= i < |rows| && rows[i].0 == k;
      assert ReadOrder(rows[i].0, rows[i].1) == Ok(GetOrders(rows).value[i]);
    }
  }

  /**
   * The order's status equals the one asked for, as C# string equality:
   * a null query matches exactly the orders whose status is null.
   */
  predicate HasStatus(o: Order, status: Option<string>) {
    o.status == status
  }

  /** The orders whose status is the given one, in their original order. */
  function FilterByStatus(orders: seq<Order>, status: Option<string>): (r: seq<Order>)
    ensures |r| <= |orders|
    ensures forall o :: o in r <==> o in orders && HasStatus(o, status)
    ensures multiset(r) <= multiset(orders)
  {
    if |orders| == 0 then []
    else
      var rest := FilterByStatus(orders[1..], status);
      assert orders == [orders[0]] + orders[1..];
      if HasStatus(orders[0], status) then [orders[0]] + rest else rest
  }

  /** Filtering commutes with concatenation, so it keeps the relative order of the orders. */
  lemma {:induction false} FilterConcat(a: seq<Order>, b: seq<Order>, status: Option<string>)
    ensures FilterByStatus(a + b, status) == FilterByStatus(a, status) + FilterByStatus(b, status)
  {
    if |a| == 0 {
      assert a + b == b;
    } else {
      assert (a + b)[1..] == a[1..] + b;
      FilterConcat(a[1..], b, status);
    }
  }

  /** Filtering twice by the same status filters once. */
  lemma {:induction false} FilterIdempotent(orders: seq<Order>, status: Option<string>)
    ensures FilterByStatus(FilterByStatus(orders, status), status) == FilterByStatus(orders, status)
  {
    if |orders| > 0 {
      FilterIdempotent(orders[1..], status);
    }
  }

  /** Every matching order keeps all its copies; every other order is dropped. */
  lemma {:induction false} FilterCounts(orders: seq<Order>, status: Option<string>, o: Order)
    ensures multiset(FilterByStatus(orders, status))[o]
            == if HasStatus(o, status) then multiset(orders)[o] else 0
  {
    if |orders| > 0 {
      var rest := FilterByStatus(orders[1..], status);
      FilterCounts(orders[1..], status, o);
      assert orders == [orders[0]] + orders[1..];
      assert multiset(orders) == multiset([orders[0]]) + multiset(orders[1..]);
      assert FilterByStatus(orders, status)
             == if HasStatus(orders[0], status) then [orders[0]] + rest else rest;
    }
  }

  /**
   * Orders with the given status, in listing order. The customer and product
   * join that precedes the filter does not change the orders themselves.
   */
  function GetOrdersByStatus(rows: Rows, status: Option<string>): (r: Result<seq<Order>, OrderError>)
    ensures r.Ok? <==> GetOrders(rows).Ok?
    ensures r.Ok? ==> r.value == FilterByStatus(GetOrders(rows).value, status)
    ensures r.Err? ==> r.error == GetOrders(rows).error
    ensures r.Ok? ==> forall o :: o in r.value <==> o in GetOrders(rows).value && HasStatus(o, status)
  {
    match GetOrders(rows)
    case Err(err) => Err(err)
    case Ok(orders) => Ok(FilterByStatus(orders, status))
  }
}
