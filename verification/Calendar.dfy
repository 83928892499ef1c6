/** Civil dates and instants in UTC, and the rolling anniversary window of the
    free-withdrawal allowance. A Stamp is what Go's time.Time shows in UTC. */
module Calendar {

  const NANOS_PER_DAY := 86_400_000_000_000

  predicate Leap(y: int) {
    y % 4 == 0 && (y % 100 != 0 || y % 400 == 0)
  }

  function DaysIn(y: int, m: int): (d: int)
    requires 1 <= m <= 12
    ensures 28 <= d <= 31
  {
    if m == 2 then (if Leap(y) then 29 else 28)
    else if m in {4, 6, 9, 11} then 30
    else 31
  }

  /** Days from 1 January of year 1 to 1 January of year `y`. */
  function DaysBeforeYear(y: int): int {
    365 * (y - 1) + (y - 1) / 4 - (y - 1) / 100 + (y - 1) / 400
  }

  function DaysBeforeMonth(y: int, m: int): int
    requires 1 <= m <= 12
  {
    if m == 1 then 0 else DaysBeforeMonth(y, m - 1) + DaysIn(y, m - 1)
  }

  function DayNumber(y: int, m: int, d: int): int
    requires 1 <= m <= 12
  {
    DaysBeforeYear(y) + DaysBeforeMonth(y, m) + d - 1
  }

  datatype StampRecord = Stamp(year: int, month: int, day: int, nanos: int)

  predicate ValidStamp(s: StampRecord) {
    1 <= s.month <= 12 && 1 <= s.day <= DaysIn(s.year, s.month) && 0 <= s.nanos < NANOS_PER_DAY
  }

  type Stamp = s: StampRecord | ValidStamp(s) witness Stamp(1, 1, 1, 0)

  /** The date part, which is what truncateToDate keeps. */
  function Day(s: Stamp): int {
    DayNumber(s.year, s.month, s.day)
  }

  function Instant(s: Stamp): int {
    Day(s) * NANOS_PER_DAY + s.nanos
  }

  /** Go's AddDate(1, 0, 0): the same month and day a year on, a day that the
      month does not have spilling into the next month. */
  function NextYear(s: Stamp): Stamp {
    var room := DaysIn(s.year + 1, s.month);
    if s.day <= room then s.(year := s.year + 1)
    else s.(year := s.year + 1, month := s.month + 1, day := s.day - room)
  }

  /** AddDate(1, 0, 0) applied `k` times. */
  function YearsOn(anchor: Stamp, k: nat): Stamp {
    if k == 0 then anchor else NextYear(YearsOn(anchor, k - 1))
  }

  lemma {:induction false} YearLength(y: int)
    ensures DaysBeforeYear(y + 1) == DaysBeforeYear(y) + (if Leap(y) then 366 else 365)
  {
    assert y / 4 - (y - 1) / 4 == if y % 4 == 0 then 1 else 0;
    assert y / 100 - (y - 1) / 100 == if y % 100 == 0 then 1 else 0;
    assert y / 400 - (y - 1) / 400 == if y % 400 == 0 then 1 else 0;
  }

  lemma {:induction false} MonthShift(y: int, z: int, m: int)
    requires 1 <= m <= 12
    ensures DaysBeforeMonth(z, m) ==
            DaysBeforeMonth(y, m) + (if m <= 2 || Leap(z) == Leap(y) then 0 else if Leap(z) then 1 else -1)
  {
    if m > 1 {
      MonthShift(y, z, m - 1);
    }
  }

  /** One anniversary step is exactly 365 or 366 whole days. */
  lemma {:induction false} AnniversaryStep(s: Stamp)
    ensures NextYear(s).nanos == s.nanos
    ensures Day(NextYear(s)) - Day(s) in {365, 366}
    ensures Instant(NextYear(s)) == Instant(s) + (Day(NextYear(s)) - Day(s)) * NANOS_PER_DAY
    ensures Instant(s) < Instant(NextYear(s))
  {
    YearLength(s.year);
    MonthShift(s.year, s.year + 1, s.month);
    if s.day > DaysIn(s.year + 1, s.month) {
      assert s.month == 2 && s.day == 29 && Leap(s.year);
      MonthShift(s.year, s.year + 1, 3);
      assert DaysBeforeMonth(s.year + 1, 3) == DaysBeforeMonth(s.year + 1, 2) + DaysIn(s.year + 1, 2);
    }
  }

  /** The [start, end) window containing `now`, searched from `anchor`. */
  function Window(anchor: Stamp, now: Stamp): (Stamp, Stamp)
    decreases Instant(now) - Instant(anchor)
  {
    AnniversaryStep(anchor);
    if Instant(NextYear(anchor)) > Instant(now) then (anchor, NextYear(anchor))
    else Window(NextYear(anchor), now)
  }

  method WithdrawalWindow(anchor: Stamp, now: Stamp) returns (start: Stamp, end: Stamp)
    ensures (start, end) == Window(anchor, now)
    ensures end == NextYear(start) && Instant(now) < Instant(end)
    ensures Instant(anchor) <= Instant(now) ==> Instant(start) <= Instant(now)
  {
    start := anchor;
    AnniversaryStep(start);
    while Instant(NextYear(start)) <= Instant(now)
      invariant Window(start, now) == Window(anchor, now)
      invariant Instant(anchor) <= Instant(now) ==> Instant(start) <= Instant(now)
      decreases Instant(now) - Instant(start)
    {
      AnniversaryStep(start);
      start := NextYear(start);
    }
    end := NextYear(start);
  }

  /** The k-th window start, in closed form. */
  lemma {:induction false} YearsOnClosedForm(anchor: Stamp, k: nat)
    ensures YearsOn(anchor, k) ==
            if k > 0 && anchor.month == 2 && anchor.day == 29
            then Stamp(anchor.year + k, 3, 1, anchor.nanos)
            else anchor.(year := anchor.year + k)
  {
    if k > 0 {
      YearsOnClosedForm(anchor, k - 1);
      if k == 1 {
        assert anchor.month == 2 && anchor.day == 29 ==> Leap(anchor.year) && !Leap(anchor.year + 1);
      }
    }
  }

  lemma {:induction false} YearsOnShift(anchor: Stamp, k: nat)
    ensures YearsOn(NextYear(anchor), k) == YearsOn(anchor, k + 1)
  {
    if k > 0 {
      YearsOnShift(anchor, k - 1);
    }
  }

  lemma {:induction false} YearsOnIncreases(anchor: Stamp, j: nat, k: nat)
    requires j < k
    ensures Instant(YearsOn(anchor, j)) < Instant(YearsOn(anchor, k))
    decreases k
  {
    AnniversaryStep(YearsOn(anchor, k - 1));
    if j < k - 1 {
      YearsOnIncreases(anchor, j, k - 1);
    }
  }

  /** Every instant from the anchor on lies in exactly the window the search
      returns, and that window is one of the anniversary intervals. */
  lemma {:induction false} WindowFound(anchor: Stamp, now: Stamp) returns (k: nat)
    requires Instant(anchor) <= Instant(now)
    ensures Window(anchor, now) == (YearsOn(anchor, k), YearsOn(anchor, k + 1))
    ensures Instant(YearsOn(anchor, k)) <= Instant(now) < Instant(YearsOn(anchor, k + 1))
    decreases Instant(now) - Instant(anchor)
  {
    AnniversaryStep(anchor);
    if Instant(NextYear(anchor)) > Instant(now) {
      k := 0;
      assert YearsOn(anchor, 1) == NextYear(YearsOn(anchor, 0));
    } else {
      var j := WindowFound(NextYear(anchor), now);
      YearsOnShift(anchor, j);
      YearsOnShift(anchor, j + 1);
      k := j + 1;
    }
  }

  ghost predicate Inside(t: Stamp, w: (Stamp, Stamp)) {
    Instant(w.0) <= Instant(t) < Instant(w.1)
  }

  /** Distinct anniversary intervals do not overlap. */
  lemma {:induction false} IntervalsApart(anchor: Stamp, j: nat, k: nat)
    requires j < k
    ensures Instant(YearsOn(anchor, j)) < Instant(YearsOn(anchor, j + 1)) <= Instant(YearsOn(anchor, k))
  {
    YearsOnIncreases(anchor, j, j + 1);
    if j + 1 < k {
      YearsOnIncreases(anchor, j + 1, k);
    }
  }

  /** The windows tile time from the anchor on: an instant falls in a window
      exactly when it is the window found for it, so two windows are equal or
      disjoint; each lasts 365 or 366 days. */
  lemma {:induction false} WindowsTile(anchor: Stamp, now: Stamp, t: Stamp)
    requires Instant(anchor) <= Instant(now) && Instant(anchor) <= Instant(t)
    ensures Inside(now, Window(anchor, now))
    ensures Inside(t, Window(anchor, now)) <==> Window(anchor, t) == Window(anchor, now)
    ensures Window(anchor, t) != Window(anchor, now) ==>
              || Instant(Window(anchor, t).1) <= Instant(Window(anchor, now).0)
              || Instant(Window(anchor, now).1) <= Instant(Window(anchor, t).0)
  {
    var w, v := Window(anchor, now), Window(anchor, t);
    var k := WindowFound(anchor, now);
    var j := WindowFound(anchor, t);
    if j < k {
      IntervalsApart(anchor, j, k);
      assert Instant(v.1) <= Instant(w.0);
    } else if k < j {
      IntervalsApart(anchor, k, j);
      assert Instant(w.1) <= Instant(v.0);
    }
  }

  lemma {:induction false} WindowLasts365Or366Days(anchor: Stamp, now: Stamp)
    requires Instant(anchor) <= Instant(now)
    ensures var w := Window(anchor, now);
            Day(w.1) - Day(w.0) in {365, 366} && w.0.nanos == w.1.nanos
  {
    var k := WindowFound(anchor, now);
    AnniversaryStep(YearsOn(anchor, k));
  }
}
