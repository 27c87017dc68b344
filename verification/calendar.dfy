/**
 * Calendar days as Python date ordinals: day 1 is 0001-01-01 (`date.min`)
 * and day 3652059 is 9999-12-31 (`date.max`). Date arithmetic that leaves
 * this range raises `OverflowError` in Python.
 */
module Calendar {

  const MinOrdinal: int := 1
  const MaxOrdinal: int := 3652059

  /** A day Python's `date` type can represent. */
  predicate InDateRange(day: int) {
    MinOrdinal <= day <= MaxOrdinal
  }

  /** The exception raised by date arithmetic outside the representable range. */
  datatype DateError = OverflowError
}
