/**
 * Calendar-day helpers over an abstract local date: a day number (days
 * since Thursday 1 January 1970 in the local calendar) and the
 * milliseconds since local midnight. The clock is never read: "now" is a
 * parameter.
 */
module DateHelpers {

  const MsPerDay: int := 86_400_000
  const MsPerHour: int := 3_600_000
  const MsPerMinute: int := 60_000

  /** Milliseconds since local midnight. */
  type TimeOfDay = t: int | 0 <= t < 86_400_000

  /** A JavaScript `Date`, seen in local time. */
  datatype Date = Date(day: int, time: TimeOfDay)

  /** The value `<` and `<=` compare: milliseconds on the local time line. */
  function Timestamp(d: Date): int {
    d.day * MsPerDay + d.time
  }

  /** Timestamps order dates by day first and by time of day second. */
  lemma TimestampOrder(a: Date, b: Date)
    ensures Timestamp(a) <= Timestamp(b) <==> a.day < b.day || (a.day == b.day && a.time <= b.time)
    ensures Timestamp(a) == Timestamp(b) <==> a == b
  {
  }

  /** A copy of the date with `setHours(0, 0, 0, 0)` applied. */
  function StartOfDay(d: Date): Date {
    Date(d.day, 0)
  }

  /** date-fns `addDays`: the same time of day, `n` calendar days later. */
  function AddDays(d: Date, n: int): Date {
    Date(d.day + n, d.time)
  }

  /** `getDay()`: 0 is Sunday, 6 is Saturday; day 0 was a Thursday. */
  function Weekday(day: int): (w: int)
    ensures 0 <= w < 7
  {
    (day + 4) % 7
  }

  /**
   * Weekdays advance by one each day and wrap after Saturday; 4 January
   * 1970 (day 3) was a Sunday and 1 January 1970 (day 0) a Thursday.
   */
  lemma WeekdayCycle(day: int)
    ensures Weekday(day + 1) == (Weekday(day) + 1) % 7
    ensures Weekday(0) == 4 && Weekday(3) == 0
  {
  }

  /** date-fns `isSameDay`: the two dates have the same start of day. */
  predicate IsSameDay(a: Date, b: Date) {
    Timestamp(StartOfDay(a)) == Timestamp(StartOfDay(b))
  }

  /** date-fns `isToday`: the same day as now. */
  predicate IsToday(d: Date, now: Date) {
    IsSameDay(d, now)
  }

  /** `isPast`: the date's midnight lies before today's midnight. */
  predicate IsPast(d: Date, now: Date) {
    Timestamp(StartOfDay(d)) < Timestamp(StartOfDay(now))
  }

  /** date-fns `startOfWeek(now, { weekStartsOn: 0 })`: the Sunday on or before now, at midnight. */
  function StartOfWeek(now: Date): Date {
    Date(now.day - Weekday(now.day), 0)
  }

  /** date-fns `endOfWeek(now, { weekStartsOn: 0 })`: the following Saturday at 23:59:59.999. */
  function EndOfWeek(now: Date): Date {
    Date(now.day - Weekday(now.day) + 6, MsPerDay - 1)
  }

  // ---------------------------------------------------------------------
  // Properties of the day predicates

  /** Two dates are on the same day iff their day numbers agree. */
  lemma SameDayIff(a: Date, b: Date)
    ensures IsSameDay(a, b) <==> a.day == b.day
  {
  }

  /** A date is today iff it has today's day number, at any time of day. */
  lemma TodayIff(d: Date, now: Date)
    ensures IsToday(d, now) <==> d.day == now.day
  {
    SameDayIff(d, now);
  }

  /** `isSameDay` is reflexive and symmetric. */
  lemma SameDayReflexiveSymmetric(a: Date, b: Date)
    ensures IsSameDay(a, a)
    ensures IsSameDay(a, b) == IsSameDay(b, a)
  {
  }

  /** A date is past iff its day number is below today's; its time of day is irrelevant. */
  lemma PastIff(d: Date, now: Date)
    ensures IsPast(d, now) <==> d.day < now.day
  {
  }

  /** A past date is never today, so `isPast(d) && !isToday(d)` is just `isPast(d)`. */
  lemma PastIsNotToday(d: Date, now: Date)
    ensures IsPast(d, now) ==> !IsToday(d, now)
    ensures (IsPast(d, now) && !IsToday(d, now)) == IsPast(d, now)
  {
    PastIff(d, now);
    SameDayIff(d, now);
  }

  /** Midnight and one minute before the next midnight of today are not past; yesterday late is. */
  lemma PastSamples(now: Date)
    ensures !IsPast(Date(now.day, 0), now)
    ensures !IsPast(Date(now.day, 23 * MsPerHour + 59 * MsPerMinute), now)
    ensures IsPast(Date(now.day - 1, 23 * MsPerHour + 59 * MsPerMinute), now)
  {
  }

  /** The week bounds: a Sunday midnight at most six days before now, and the Saturday night six days after it. */
  lemma WeekBounds(now: Date)
    ensures Weekday(StartOfWeek(now).day) == 0
    ensures StartOfWeek(now).day <= now.day < StartOfWeek(now).day + 7
    ensures EndOfWeek(now).day == StartOfWeek(now).day + 6 && Weekday(EndOfWeek(now).day) == 6
    ensures Timestamp(StartOfWeek(now)) <= Timestamp(now) <= Timestamp(EndOfWeek(now))
  {
  }

  // ---------------------------------------------------------------------
  // Week generation

  /**
   * `getCurrentWeekDates`: from the start of the week, push the current
   * date and advance it by one day while it is not after the end of the
   * week.
   */
  method GetCurrentWeekDates(now: Date) returns (dates: seq<Date>)
    ensures |dates| == 7
    ensures forall i :: 0 <= i < 7 ==> dates[i] == AddDays(StartOfWeek(now), i)
    ensures Weekday(dates[0].day) == 0 && dates[0].time == 0
    ensures dates[0].day <= now.day < dates[0].day + 7
    ensures forall i :: 0 < i < 7 ==> dates[i] == AddDays(dates[i - 1], 1)
    ensures forall i :: 0 <= i < 7 ==>
      Timestamp(StartOfWeek(now)) <= Timestamp(dates[i]) <= Timestamp(EndOfWeek(now))
    ensures IsToday(dates[Weekday(now.day)], now)
  {
    var start := StartOfWeek(now);
    var end := EndOfWeek(now);
    dates := [];
    var current := start;
    while Timestamp(current) <= Timestamp(end)
      invariant |dates| <= 7
      invariant current == AddDays(start, |dates|)
      invariant forall i :: 0 <= i < |dates| ==> dates[i] == AddDays(start, i)
      invariant forall i :: 0 <= i < |dates| ==>
        Timestamp(start) <= Timestamp(dates[i]) <= Timestamp(end)
      decreases Timestamp(end) - Timestamp(current)
    {
      TimestampOrder(current, end);
      assert current.day <= end.day;
      dates := dates + [current];
      current := AddDays(current, 1);
    }
    WeekBounds(now);
  }

  /** `getNext7Days`: today and the six following days, at now's time of day. */
  method GetNext7Days(now: Date) returns (dates: seq<Date>)
    ensures |dates| == 7
    ensures forall i :: 0 <= i < 7 ==> dates[i] == AddDays(now, i)
    ensures dates[0] == now
    ensures forall i :: 0 < i < 7 ==> dates[i].day == dates[i - 1].day + 1
  {
    dates := [];
    for i := 0 to 7
      invariant |dates| == i
      invariant forall k :: 0 <= k < i ==> dates[k] == AddDays(now, k)
    {
      dates := dates + [AddDays(now, i)];
    }
  }
}
