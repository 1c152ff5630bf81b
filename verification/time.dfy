/** Stand-ins for the values `time.Now()` supplies. Instants are integers counting
    nanoseconds since the Unix epoch; `Today` is the same moment seen through the
    UTC calendar. */
module Time {

  const Second: int := 1_000_000_000
  const Minute: int := 60 * Second
  const Hour: int := 60 * Minute

  /** Go's zero `time.Time` (January 1 of year 1, UTC) as an instant. */
  const ZeroTime: int := -62_135_596_800 * Second

  type MonthOfYear = m: int | 1 <= m <= 12 witness 1

  /** The current calendar month and the nanoseconds elapsed since it began. */
  datatype Today = Today(year: int, month: MonthOfYear, sinceMonthStart: nat)

  /** Months elapsed since January of year 0. `time.Date` normalises a month outside
      1..12 by carrying into the year, which leaves this count unchanged. */
  function MonthIndex(year: int, month: int): int
  {
    year * 12 + month - 1
  }
}
