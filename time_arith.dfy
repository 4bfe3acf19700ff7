/** Time arithmetic of the presence utilities: a timestamp reduced to the
    seconds elapsed since midnight, and the signed interval between two
    timestamps on the same clock face. */
module TimeArith {
  import opened Calendar

  const SecondsPerDay := 86400

  /** What the utilities accept as a timestamp: a bare clock time, or a
      date-and-time whose date part plays no role. */
  datatype Timestamp = TimeOnly(clock: ClockTime) | DateTime(date: CalendarDate, clock: ClockTime)

  /** Seconds elapsed since midnight. The result lies within one day, and
      the hour, minute and second can be read back from it. */
  function SecondsSinceMidnight(t: Timestamp): (n: int)
    ensures 0 <= n < SecondsPerDay
    ensures n / 3600 == t.clock.hour && n / 60 % 60 == t.clock.minute && n % 60 == t.clock.second
  {
    t.clock.hour * 3600 + t.clock.minute * 60 + t.clock.second
  }

  /** The clock time that is `n` seconds after midnight. */
  function ClockOf(n: int): (c: ClockTime)
    requires 0 <= n < SecondsPerDay
    ensures SecondsSinceMidnight(TimeOnly(c)) == n
  {
    Time(n / 3600, n / 60 % 60, n % 60)
  }

  /** Clock faces ordered hour first, then minute, then second. */
  predicate ClockLeq(a: ClockTime, b: ClockTime) {
    a.hour < b.hour
    || (a.hour == b.hour && a.minute < b.minute)
    || (a.hour == b.hour && a.minute == b.minute && a.second <= b.second)
  }

  /** Signed seconds from `start` to `end`: adding it to the start's
      seconds gives the end's; it is never clamped, so it is negative when
      the end's clock reads earlier than the start's. */
  function Interval(start: Timestamp, end: Timestamp): (r: int)
    ensures SecondsSinceMidnight(start) + r == SecondsSinceMidnight(end)
    ensures -SecondsPerDay < r < SecondsPerDay
    ensures r >= 0 <==> ClockLeq(start.clock, end.clock)
  {
    SecondsSinceMidnight(end) - SecondsSinceMidnight(start)
  }

  /** Seconds since midnight and ClockOf are inverse to each other. */
  lemma ClockRoundTrip(c: ClockTime)
    ensures ClockOf(SecondsSinceMidnight(TimeOnly(c))) == c
  {
  }

  /** The date part of a timestamp does not change its seconds. */
  lemma DateIgnored(d: CalendarDate, c: ClockTime)
    ensures SecondsSinceMidnight(DateTime(d, c)) == SecondsSinceMidnight(TimeOnly(c))
  {
  }

  /** Intervals compose end to end and reverse by negation. */
  lemma {:induction false} IntervalChain(a: Timestamp, b: Timestamp, c: Timestamp)
    ensures Interval(a, b) + Interval(b, c) == Interval(a, c)
    ensures Interval(b, a) == -Interval(a, b)
    ensures Interval(a, a) == 0
  {
  }
}
