/** Calendar arithmetic on day numbers. The source subtracts a `timedelta`
    of whole days from `datetime.now()` and formats both ends as dates; here
    a date is the number of its day and "now" is a parameter. */
module Dates {

  /** The closed range of days a catalog search covers. */
  datatype DateWindow = DateWindow(start: int, end: int)

  /** The window of `daysBack` days that ends on `today`. */
  function WindowEndingOn(today: int, daysBack: int): (w: DateWindow)
    ensures w.end == today
    ensures w.end - w.start == daysBack
    ensures w.start <= w.end <==> daysBack >= 0
  {
    DateWindow(today - daysBack, today)
  }
}
