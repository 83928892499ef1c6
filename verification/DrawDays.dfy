/** The draw-day calendar and the search for the next day to buy on. Dates are
    day numbers. */
module DrawDays {
  import opened Outcomes
  import opened Calendar

  const SEARCH_LIMIT := 45

  /** The first of `n` days from `day` on that is not a draw day. */
  function FirstFree(draws: set<int>, day: int, n: nat): (r: Option<int>)
    ensures r.Some? ==> && day <= r.value < day + n && r.value !in draws
                        && forall d :: day <= d < r.value ==> d in draws
    ensures r.None? <==> forall d :: day <= d < day + n ==> d in draws
    decreases n
  {
    if n == 0 then None
    else if day !in draws then Some(day)
    else FirstFree(draws, day + 1, n - 1)
  }

  /** The date a purchase refused today may be tried again. */
  function NextAvailable(draws: set<int>, today: int): Option<int> {
    FirstFree(draws, today + 1, SEARCH_LIMIT)
  }

  /** The search finds the least later day that is not a draw, and gives up
      exactly when all 45 days that follow are draws. */
  method NextAvailableDate(draws: set<int>, today: int) returns (r: Option<int>)
    ensures r == NextAvailable(draws, today)
    ensures r.Some? ==> r.value > today && r.value !in draws && forall d :: today < d < r.value ==> d in draws
    ensures r.None? <==> forall d :: today < d <= today + 45 ==> d in draws
  {
    var candidate := today + 1;
    for i := 0 to SEARCH_LIMIT
      invariant candidate == today + 1 + i
      invariant forall d :: today < d < candidate ==> d in draws
    {
      if candidate !in draws {
        return Some(candidate);
      }
      candidate := candidate + 1;
    }
    return None;
  }

  // ---- the seeded calendar

  function DrawDayFor(termMonths: int, month: int): Option<int> {
    if termMonths == 12 then Some(16)
    else if termMonths == 24 then Some(if month == 1 || month == 5 then 2 else 1)
    else None
  }

  datatype Date = Date(year: int, month: int, day: int)

  function DateNumber(d: Date): int
    requires 1 <= d.month <= 12
  {
    DayNumber(d.year, d.month, d.day)
  }

  /** A date the calendar of a term holds. */
  predicate Drawn(termMonths: int, years: seq<int>, d: Date) {
    d.year in years && 1 <= d.month <= 12 && DrawDayFor(termMonths, d.month) == Some(d.day)
  }

  /** The one-year product is drawn on the 16th of each month; the two-year one on
      the first, but in January and May on the second; no other has draws. */
  lemma {:induction false} WhenDrawn(termMonths: int, years: seq<int>, d: Date)
    ensures Drawn(12, years, d) <==> d.year in years && 1 <= d.month <= 12 && d.day == 16
    ensures Drawn(24, years, d) <==>
            d.year in years && 1 <= d.month <= 12 && d.day == if d.month in {1, 5} then 2 else 1
    ensures termMonths !in {12, 24} ==> !Drawn(termMonths, years, d)
  {}

  /** The `i`-th date of the calendar of a term that has draws. */
  function CalendarDate(termMonths: int, years: seq<int>, i: nat): Date
    requires i < 12 * |years|
  {
    var month := i % 12 + 1;
    Date(years[i / 12], month, DrawDayFor(termMonths, month).UnwrapOr(0))
  }

  method GenerateDrawDates(termMonths: int, years: seq<int>) returns (dates: seq<Date>)
    ensures |dates| == if DrawDayFor(termMonths, 1).Some? then 12 * |years| else 0
    ensures forall i :: 0 <= i < |dates| ==> dates[i] == CalendarDate(termMonths, years, i)
    ensures forall d :: d in dates <==> Drawn(termMonths, years, d)
  {
    var hasDraws := DrawDayFor(termMonths, 1).Some?;
    dates := [];
    for i := 0 to |years|
      invariant |dates| == if hasDraws then 12 * i else 0
      invariant forall k :: 0 <= k < |dates| ==> dates[k] == CalendarDate(termMonths, years, k)
    {
      var month := 1;
      while month <= 12
        invariant 1 <= month <= 13
        invariant |dates| == if hasDraws then 12 * i + month - 1 else 0
        invariant forall k :: 0 <= k < |dates| ==> dates[k] == CalendarDate(termMonths, years, k)
        decreases 13 - month
      {
        var day := DrawDayFor(termMonths, month);
        if day.Some? {
          dates := dates + [Date(years[i], month, day.value)];
        }
        month := month + 1;
      }
    }
    CalendarIsDrawn(termMonths, years, dates);
  }

  /** The calendar lists a date exactly when it is drawn. */
  lemma {:induction false} CalendarIsDrawn(termMonths: int, years: seq<int>, dates: seq<Date>)
    requires |dates| == if DrawDayFor(termMonths, 1).Some? then 12 * |years| else 0
    requires forall i :: 0 <= i < |dates| ==> dates[i] == CalendarDate(termMonths, years, i)
    ensures forall d :: d in dates <==> Drawn(termMonths, years, d)
  {
    forall d | Drawn(termMonths, years, d) ensures d in dates {
      var y :| 0 <= y < |years| && years[y] == d.year;
      assert dates[12 * y + d.month - 1] == d;
    }
  }

  /** Months counted from 1 January of year 0. */
  function MonthStart(y: int, m: int): int
    requires 1 <= m <= 12
  {
    DayNumber(y, m, 1)
  }

  lemma {:induction false} DecemberEnds(y: int)
    ensures DaysBeforeMonth(y, 12) + 31 == DaysBeforeYear(y + 1) - DaysBeforeYear(y)
  {
    YearLength(y);
    var m := 1;
    while m < 12
      invariant 1 <= m <= 12
      invariant DaysBeforeMonth(y, m) ==
                [0, 31, 59, 90, 120, 151, 181, 212, 243, 273, 304, 334][m - 1] + (if m > 2 && Leap(y) then 1 else 0)
    {
      m := m + 1;
    }
  }

  /** A month starts where the month before it ends. */
  lemma {:induction false} MonthsMeet(z: int, n: int)
    requires 1 <= n <= 12
    ensures n > 1 ==> MonthStart(z, n) == MonthStart(z, n - 1) + DaysIn(z, n - 1)
    ensures n == 1 ==> MonthStart(z, n) == MonthStart(z - 1, 12) + DaysIn(z - 1, 12)
  {
    hide DaysBeforeYear;
    if n == 1 {
      DecemberEnds(z - 1);
    }
  }

  /** An earlier month ends before a later one starts. */
  lemma {:induction false} LaterMonth(y: int, m: int, z: int, n: int)
    requires 1 <= m <= 12 && 1 <= n <= 12 && 12 * y + m < 12 * z + n
    ensures MonthStart(y, m) + DaysIn(y, m) <= MonthStart(z, n)
    decreases 12 * z + n - 12 * y - m
  {
    hide MonthStart, DaysIn;
    MonthsMeet(z, n);
    if n > 1 && 12 * y + m < 12 * z + n - 1 {
      LaterMonth(y, m, z, n - 1);
    } else if n == 1 && 12 * y + m < 12 * z {
      LaterMonth(y, m, z - 1, 12);
    }
  }

  /** Any two draw days of a calendar are at least 28 days apart. */
  lemma {:induction false} DrawsApart(termMonths: int, years: seq<int>, a: Date, b: Date)
    requires Drawn(termMonths, years, a) && Drawn(termMonths, years, b)
    requires 12 * a.year + a.month < 12 * b.year + b.month
    ensures DateNumber(a) + 28 <= DateNumber(b)
  {
    LaterMonth(a.year, a.month, b.year, b.month);
    if a.day == 2 && b.day == 1 {
      assert DaysIn(a.year, a.month) == 31;
    }
  }

  ghost predicate Ascending(years: seq<int>) {
    forall i, j :: 0 <= i < j < |years| ==> years[i] < years[j]
  }

  /** For years in order, each draw of the calendar is at least 28 days after
      the one before it; so none is listed twice. */
  lemma {:induction false} CalendarAscends(termMonths: int, years: seq<int>, i: nat, j: nat)
    requires Ascending(years) && i < j < 12 * |years| && DrawDayFor(termMonths, 1).Some?
    ensures DateNumber(CalendarDate(termMonths, years, i)) + 28 <= DateNumber(CalendarDate(termMonths, years, j))
  {
    var a, b := CalendarDate(termMonths, years, i), CalendarDate(termMonths, years, j);
    assert a.year <= b.year && (i / 12 < j / 12 ==> a.year < b.year);
    DrawsApart(termMonths, years, a, b);
  }

  function DayNumbers(dates: set<Date>): set<int>
    requires forall d :: d in dates ==> 1 <= d.month <= 12
  {
    set d | d in dates :: DateNumber(d)
  }

  /** On a draw day of a generated calendar, the search answers tomorrow. */
  lemma {:induction false} DrawDayWaitsOneDay(termMonths: int, years: seq<int>, dates: set<Date>, today: int)
    requires forall d :: d in dates <==> Drawn(termMonths, years, d)
    requires forall d :: d in dates ==> 1 <= d.month <= 12
    requires today in DayNumbers(dates)
    ensures NextAvailable(DayNumbers(dates), today) == Some(today + 1)
  {
    hide DayNumber;
    var a :| a in dates && DateNumber(a) == today;
    if today + 1 in DayNumbers(dates) {
      var b :| b in dates && DateNumber(b) == today + 1;
      if 12 * a.year + a.month < 12 * b.year + b.month {
        DrawsApart(termMonths, years, a, b);
      } else if 12 * b.year + b.month < 12 * a.year + a.month {
        DrawsApart(termMonths, years, b, a);
      }
    }
  }
}
