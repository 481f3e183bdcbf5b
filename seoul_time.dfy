/** Calendar arithmetic in the Asia/Seoul zone, the one zone the app uses for every
    day boundary. Instants are whole seconds since the Unix epoch; Seoul is a fixed
    UTC+9 with no daylight saving, so a calendar day is always 86400 seconds long. */
module SeoulTime {

  const SecondsPerDay: int := 86400
  const SeoulOffset: int := 9 * 3600

  /** Number of the Seoul calendar day that contains instant `t` (day 0 starts at
      1970-01-01 00:00 in Seoul). */
  function DayIndex(t: int): int
  {
    (t + SeoulOffset) / SecondsPerDay
  }

  /** `calendar.startOfDay(for: t)`: the midnight in Seoul that begins `t`'s day. */
  function StartOfDay(t: int): (r: int)
    ensures r <= t < r + SecondsPerDay
    ensures DayIndex(r) == DayIndex(t)
    ensures (r + SeoulOffset) % SecondsPerDay == 0
  {
    DayIndex(t) * SecondsPerDay - SeoulOffset
  }

  /** `calendar.date(byAdding: .day, value: days, to: t)`: exact in a zone without
      daylight saving. The result lies `days` calendar days after `t`'s day, at the
      same time of day. */
  function AddingDays(t: int, days: int): (r: int)
    ensures DayIndex(r) == DayIndex(t) + days
    ensures r - StartOfDay(r) == t - StartOfDay(t)
  {
    t + days * SecondsPerDay
  }

  /** Two midnights compare as their day numbers do. */
  lemma StartOfDayMonotone(a: int, b: int)
    ensures StartOfDay(a) < StartOfDay(b) <==> DayIndex(a) < DayIndex(b)
    ensures StartOfDay(a) == StartOfDay(b) <==> DayIndex(a) == DayIndex(b)
  {
  }

  /** `dateComponents([.day], from: a, to: b).day` for two Seoul midnights. */
  function DaysBetween(a: int, b: int): (d: int)
    requires (a + SeoulOffset) % SecondsPerDay == 0 && (b + SeoulOffset) % SecondsPerDay == 0
    ensures d == DayIndex(b) - DayIndex(a)
  {
    (b - a) / SecondsPerDay
  }
}
