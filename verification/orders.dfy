/**
 * The Order record, its status guard and badge, and the fields the create
 * path fills in.
 *
 * Status is stored as a string, possibly null (None), exactly as the record
 * holds it; the guard interprets it through Statuses.Parse.
 */
module Orders {
  import opened Results
  import opened Statuses
  import opened TableValues

  /** The partition every order is created in and looked up from. */
  const OrderPartition: string := "Order"

  /** The status a new order starts in. */
  const DefaultStatus: Status := Pending

  /** The exceptions the order code raises. */
  datatype OrderError =
      /** The guard's dictionary lookup was given a null status. */
    | NullStatus
      /** A string property held a value of another type. */
    | WrongPropertyType(property: string)
      /** The order was missing (from is None) or the move is not in the table. */
    | InvalidTransition(from: Option<string>, to: string)
      /** A replace was sent for a row that does not exist. */
    | EntityNotFound(key: TableKey)
      /** A replace carried a date earlier than the table service stores. */
    | UnstorableDate(key: TableKey)

  /**
   * An order as the application holds it. TotalAmount is carried as the
   * stored table value; Timestamp and ETag are not part of the model.
   */
  datatype Order = Order(
    partitionKey: string,
    rowKey: string,
    customerId: Option<string>,
    productId: string,
    quantity: int32,
    totalAmount: Option<Value>,
    orderDate: DateTime,
    status: Option<string>)
  {
    function Key(): TableKey {
      TableKey(partitionKey, rowKey)
    }
  }

  /**
   * Whether the order may move to the requested status: true exactly when
   * the current status is a key of the transition table and the request is
   * listed under it. A null current status makes the lookup throw.
   */
  function CanUpdateStatus(o: Order, newStatus: string): (r: Result<bool, OrderError>)
    ensures r.Err? <==> o.status.None?
    ensures r.Err? ==> r.error == NullStatus
    ensures o.status.Some? ==>
              (r == Ok(true) <==> o.status.value in TransitionTable
                                  && newStatus in TransitionTable[o.status.value])
    ensures r == Ok(true) ==> o.status != Some(newStatus)
  {
    match o.status
    case None => Err(NullStatus)
    case Some(current) =>
      CanTransitionMatchesTable(current, newStatus);
      NoSelfLoops(Parse(current));
      Ok(CanTransition(Parse(current), Parse(newStatus)))
  }

  /** The badge class for the order's status; a null status gets the light badge. */
  function StatusBadgeClass(o: Order): (badge: string)
    ensures badge == DefaultBadge <==> o.status.None? || o.status.value !in StatusNames
    ensures o.status.Some? && o.status.value in BadgeTable ==> badge == BadgeTable[o.status.value]
  {
    match o.status
    case None => DefaultBadge
    case Some(name) =>
      BadgeClassMatchesSwitch(name);
      BadgeClass(Parse(name))
  }

  /**
   * The create path: the bound form gets a fresh row key, the order
   * partition, the default status and the current time; the rest of the
   * form is kept.
   */
  function CreateOrder(form: Order, freshRowKey: string, now: DateTime): (o: Order)
    ensures o.Key() == TableKey(OrderPartition, freshRowKey)
    ensures o.status == Some(Name(DefaultStatus))
    ensures o.orderDate == now
    ensures o.(status := form.status, orderDate := form.orderDate,
               partitionKey := form.partitionKey, rowKey := form.rowKey) == form
  {
    form.(rowKey := freshRowKey, partitionKey := OrderPartition,
          status := Some(Name(DefaultStatus)), orderDate := now)
  }

  /** A newly created order may move to Processing or Cancelled and nowhere else. */
  lemma NewOrderMoves(form: Order, freshRowKey: string, now: DateTime, target: string)
    ensures CanUpdateStatus(CreateOrder(form, freshRowKey, now), target) == Ok(true)
            <==> target == "Processing" || target == "Cancelled"
  {
  }
}
