/**
 * The values an order's table entity holds, and the table's key.
 *
 * Only the property types the order readers distinguish are named; every
 * other stored type (the double TotalAmount, booleans, 64-bit integers, ...)
 * is OtherValue.
 */
module TableValues {

  /** C#'s int. */
  newtype int32 = x: int | -0x8000_0000 <= x < 0x8000_0000

  /** DateTime.MaxValue, in ticks. */
  const MaxTicks: int := 3155378975999999999

  /** A DateTime as its tick count; DateTime.MinValue has zero ticks. */
  type DateTime = t: int | 0 <= t <= MaxTicks

  const MinDate: DateTime := 0

  /** The earliest date the table service stores, 1 January 1601 UTC, in ticks. */
  const MinTableTicks: int := 504911232000000000

  /** A date the table service accepts in a write. */
  predicate Storable(d: DateTime) {
    d >= MinTableTicks
  }

  datatype Value =
    | StringValue(str: string)
    | Int32Value(number: int32)
    | DateTimeValue(date: DateTime)
    | OtherValue(typeName: string)

  /** A table row's identity: partition key and row key. */
  datatype TableKey = TableKey(partitionKey: string, rowKey: string)
}
