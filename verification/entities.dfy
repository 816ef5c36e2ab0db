/**
 * Order table entities: a partial map from property name to stored value,
 * the defaulting readers that turn one into an Order, and the writer that
 * turns an Order back into the entity a full replace stores.
 *
 * A null property value is not stored by the table, so the writer leaves
 * such a property out of the entity.
 */
module Entities {
  import opened Results
  import opened TableValues
  import opened Orders

  type Entity = map<string, Value>

  /** The properties the order writer sets. */
  const OrderProperties: set<string> :=
    {"CustomerId", "ProductId", "Quantity", "TotalAmount", "OrderDate", "Status"}

  /** A stored property the string getter refuses: present with a non-string value. */
  predicate NotAString(e: Entity, property: string) {
    property in e && !e[property].StringValue?
  }

  /** The table's string getter: null when absent, an exception when of another type. */
  function GetString(e: Entity, property: string): (r: Result<Option<string>, OrderError>)
    ensures r.Err? <==> NotAString(e, property)
    ensures r.Err? ==> r.error == WrongPropertyType(property)
    ensures r.Ok? ==> (r.value.Some? <==> property in e)
    ensures r.Ok? && r.value.Some? ==> e[property] == StringValue(r.value.value)
  {
    if property !in e then Ok(None)
    else if e[property].StringValue? then Ok(Some(e[property].str))
    else Err(WrongPropertyType(property))
  }

  /** Quantity, or 0 when absent or not an int. */
  function QuantityFromEntity(e: Entity): (q: int32)
    ensures "Quantity" !in e ==> q == 0
    ensures "Quantity" in e ==> q == (if e["Quantity"].Int32Value? then e["Quantity"].number else 0)
  {
    if "Quantity" in e && e["Quantity"].Int32Value? then e["Quantity"].number else 0
  }

  /** ProductId, or the empty string when absent or not a string. */
  function ProductIdFromEntity(e: Entity): (id: string)
    ensures "ProductId" !in e ==> id == ""
    ensures "ProductId" in e ==> id == (if e["ProductId"].StringValue? then e["ProductId"].str else "")
  {
    if "ProductId" in e && e["ProductId"].StringValue? then e["ProductId"].str else ""
  }

  /** OrderDate, or DateTime.MinValue when absent or not a date. */
  function OrderDateFromEntity(e: Entity): (d: DateTime)
    ensures "OrderDate" !in e ==> d == MinDate
    ensures "OrderDate" in e ==> d == (if e["OrderDate"].DateTimeValue? then e["OrderDate"].date else MinDate)
  {
    if "OrderDate" in e && e["OrderDate"].DateTimeValue? then e["OrderDate"].date else MinDate
  }

  /** The stored TotalAmount, carried through unconverted. */
  function TotalAmountFromEntity(e: Entity): Option<Value> {
    if "TotalAmount" in e then Some(e["TotalAmount"]) else None
  }

  /**
   * The order a stored row denotes. CustomerId and Status are read with the
   * plain string getter, so a non-string there makes the read throw; the
   * other fields fall back to their defaults.
   */
  function ReadOrder(k: TableKey, e: Entity): (r: Result<Order, OrderError>)
    ensures r.Err? <==> NotAString(e, "CustomerId") || NotAString(e, "Status")
    ensures r.Err? ==> r.error == WrongPropertyType(
                         if NotAString(e, "CustomerId") then "CustomerId" else "Status")
    ensures r.Ok? ==> r.value.Key() == k
    ensures r.Ok? ==> (r.value.status.Some? <==> "Status" in e)
    ensures r.Ok? && r.value.status.Some? ==> e["Status"] == StringValue(r.value.status.value)
    ensures r.Ok? ==>
              && r.value.customerId == GetString(e, "CustomerId").value
              && r.value.productId == ProductIdFromEntity(e)
              && r.value.quantity == QuantityFromEntity(e)
              && r.value.totalAmount == TotalAmountFromEntity(e)
              && r.value.orderDate == OrderDateFromEntity(e)
  {
    match GetString(e, "CustomerId")
    case Err(err) => Err(err)
    case Ok(customerId) =>
      match GetString(e, "Status")
      case Err(err) => Err(err)
      case Ok(status) =>
        Ok(Order(k.partitionKey, k.rowKey, customerId, ProductIdFromEntity(e),
                 QuantityFromEntity(e), TotalAmountFromEntity(e), OrderDateFromEntity(e), status))
  }

  /** Adds a property when its value is not null. */
  function PutIfPresent(e: Entity, property: string, v: Option<Value>): Entity {
    match v
    case None => e
    case Some(x) => e[property := x]
  }

  function StringOf(s: Option<string>): Option<Value> {
    match s
    case None => None
    case Some(x) => Some(StringValue(x))
  }

  /** The entity a full replace stores for an order: exactly its six properties. */
  function ToEntity(o: Order): (e: Entity)
    ensures e.Keys <= OrderProperties
    ensures {"ProductId", "Quantity", "OrderDate"} <= e.Keys
  {
    var e0 := map["ProductId" := StringValue(o.productId),
                  "Quantity" := Int32Value(o.quantity),
                  "OrderDate" := DateTimeValue(o.orderDate)];
    var e1 := PutIfPresent(e0, "CustomerId", StringOf(o.customerId));
    var e2 := PutIfPresent(e1, "TotalAmount", o.totalAmount);
    PutIfPresent(e2, "Status", StringOf(o.status))
  }

  /** Reading back what the writer stored gives the order that was written. */
  lemma ReadToEntity(o: Order)
    ensures ReadOrder(o.Key(), ToEntity(o)) == Ok(o)
  {
  }

  /**
   * Each defaulted property, when missing, reads as its default: "" for
   * ProductId, 0 for Quantity, DateTime.MinValue for OrderDate; a missing
   * CustomerId or TotalAmount reads as null.
   */
  lemma MissingFieldsDefault(k: TableKey, e: Entity)
    requires ReadOrder(k, e).Ok?
    ensures "ProductId" !in e ==> ReadOrder(k, e).value.productId == ""
    ensures "Quantity" !in e ==> ReadOrder(k, e).value.quantity == 0
    ensures "OrderDate" !in e ==> ReadOrder(k, e).value.orderDate == MinDate
    ensures "CustomerId" !in e ==> ReadOrder(k, e).value.customerId.None?
    ensures "TotalAmount" !in e ==> ReadOrder(k, e).value.totalAmount.None?
  {
  }

  /** A stored property the readers took at face value rather than defaulting. */
  predicate ReadVerbatim(e: Entity, property: string)
    requires property in e
  {
    || property == "CustomerId" || property == "Status" || property == "TotalAmount"
    || (property == "ProductId" && e[property].StringValue?)
    || (property == "Quantity" && e[property].Int32Value?)
    || (property == "OrderDate" && e[property].DateTimeValue?)
  }

  /**
   * Writing back an order that was read normalises the row: every property
   * the readers took verbatim is kept, the defaulted ones are stored
   * explicitly, and properties outside the order's six are dropped.
   */
  lemma WriteBackOfRead(k: TableKey, e: Entity)
    requires ReadOrder(k, e).Ok?
    ensures var w := ToEntity(ReadOrder(k, e).value);
            && w.Keys == (e.Keys * OrderProperties) + {"ProductId", "Quantity", "OrderDate"}
            && (forall p :: p in e && p in OrderProperties && ReadVerbatim(e, p) ==> w[p] == e[p])
            && (forall p :: p in w && !(p in e && ReadVerbatim(e, p)) ==>
                  w[p] in {StringValue(""), Int32Value(0), DateTimeValue(MinDate)})
  {
  }
}
