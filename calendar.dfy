/** Dates as the backend's `datetime.date` values see them. */
module Calendar {

  /**
    `date.weekday()` (0 for Monday) of a date given as its proleptic Gregorian ordinal,
    `date.toordinal()`: day 1, the first of January of year 1, was a Monday.
  */
  function Weekday(day: int): (w: nat)
    ensures w < 7
  {
    (day - 1) % 7
  }

  /** The month and day of the month of a date; the conversion from ordinals is not modelled. */
  datatype MonthDay = MonthDay(month: nat, day: nat)
}
