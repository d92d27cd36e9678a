/**
 * The two date helpers of DateTimeAPI.java, `countWorkdays` and
 * `calculateNextBirthday`, over a model of `java.time.LocalDate`: a
 * proleptic-Gregorian (ISO-8601) date whose year lies in
 * -999999999..999999999. The clock read by `LocalDate.now()` is a parameter.
 */
module DateTime {
  import opened JavaLang

  const MIN_YEAR: int := -999_999_999
  const MAX_YEAR: int := 999_999_999

  datatype Date = Date(year: int, month: int, day: int)

  /** The ISO leap-year rule, the same for negative years. */
  predicate IsLeapYear(year: int)
  {
    year % 4 == 0 && (year % 100 != 0 || year % 400 == 0)
  }

  function LengthOfMonth(year: int, month: int): int
  {
    if month == 2 then (if IsLeapYear(year) then 29 else 28)
    else if month == 4 || month == 6 || month == 9 || month == 11 then 30
    else 31
  }

  function LengthOfYear(year: int): int
  {
    if IsLeapYear(year) then 366 else 365
  }

  predicate ValidDate(d: Date)
  {
    MIN_YEAR <= d.year <= MAX_YEAR && 1 <= d.month <= 12 && 1 <= d.day <= LengthOfMonth(d.year, d.month)
  }

  /** A value of `java.time.LocalDate`. */
  type LocalDate = d: Date | ValidDate(d) witness Date(1970, 1, 1)

  /** `LocalDate.MAX`. */
  const MAX_DATE: LocalDate := Date(MAX_YEAR, 12, 31)

  // ---------------------------------------------------------------------------
  // Ordering: `compareTo0`, `isAfter`, `isBefore`, `isEqual`

  function CompareDates(a: LocalDate, b: LocalDate): int
  {
    if a.year != b.year then a.year - b.year
    else if a.month != b.month then a.month - b.month
    else a.day - b.day
  }

  predicate IsAfter(a: LocalDate, b: LocalDate) { CompareDates(a, b) > 0 }

  predicate IsBefore(a: LocalDate, b: LocalDate) { CompareDates(a, b) < 0 }

  predicate IsEqual(a: LocalDate, b: LocalDate) { CompareDates(a, b) == 0 }

  // ---------------------------------------------------------------------------
  // Epoch days: day 0 is 1970-01-01, as in `LocalDate.toEpochDay`

  /** The number of days from 1970-01-01 to the first day of the given year. */
  function DaysBeforeYear(year: int): int
    decreases if year < 1970 then 1970 - year else year - 1970
  {
    if year == 1970 then 0
    else if year > 1970 then DaysBeforeYear(year - 1) + LengthOfYear(year - 1)
    else DaysBeforeYear(year + 1) - LengthOfYear(year)
  }

  /** The number of days of the given year before the first day of the month (month 13 = the whole year). */
  function DaysBeforeMonth(year: int, month: int): int
    requires 1 <= month <= 13
  {
    [0, 31, 59, 90, 120, 151, 181, 212, 243, 273, 304, 334, 365][month - 1]
      + (if month > 2 && IsLeapYear(year) then 1 else 0)
  }

  function EpochDay(d: LocalDate): int
  {
    DaysBeforeYear(d.year) + DaysBeforeMonth(d.year, d.month) + d.day - 1
  }

  lemma DaysBeforeYearStep(year: int)
    ensures DaysBeforeYear(year + 1) == DaysBeforeYear(year) + LengthOfYear(year)
  {
  }

  /** A later year starts after every day of an earlier one. */
  lemma {:induction false} DaysBeforeYearMonotone(y1: int, y2: int)
    requires y1 < y2
    ensures DaysBeforeYear(y1) + LengthOfYear(y1) <= DaysBeforeYear(y2)
    decreases y2 - y1
  {
    DaysBeforeYearStep(y2 - 1);
    if y1 < y2 - 1 {
      DaysBeforeYearMonotone(y1, y2 - 1);
    }
  }

  lemma DaysBeforeMonthStep(year: int, month: int)
    requires 1 <= month <= 12
    ensures DaysBeforeMonth(year, month + 1) == DaysBeforeMonth(year, month) + LengthOfMonth(year, month)
  {
  }

  lemma DaysBeforeMonthMonotone(year: int, m1: int, m2: int)
    requires 1 <= m1 <= m2 <= 13
    ensures DaysBeforeMonth(year, m1) <= DaysBeforeMonth(year, m2)
    ensures DaysBeforeMonth(year, 13) == LengthOfYear(year)
  {
  }

  /** Every day of a year has an epoch day inside that year's span. */
  lemma EpochDayWithinYear(d: LocalDate)
    ensures DaysBeforeYear(d.year) <= EpochDay(d) < DaysBeforeYear(d.year) + LengthOfYear(d.year)
  {
    DaysBeforeMonthStep(d.year, d.month);
    DaysBeforeMonthMonotone(d.year, d.month + 1, 13);
  }

  /** The lexicographic order of `compareTo0` is the order of epoch days. */
  lemma CompareMatchesEpochDay(a: LocalDate, b: LocalDate)
    ensures CompareDates(a, b) > 0 <==> EpochDay(a) > EpochDay(b)
    ensures CompareDates(a, b) < 0 <==> EpochDay(a) < EpochDay(b)
    ensures CompareDates(a, b) == 0 <==> a == b
  {
    if a.year < b.year {
      EpochDayWithinYear(a);
      EpochDayWithinYear(b);
      DaysBeforeYearMonotone(a.year, b.year);
    } else if a.year > b.year {
      EpochDayWithinYear(a);
      EpochDayWithinYear(b);
      DaysBeforeYearMonotone(b.year, a.year);
    } else if a.month < b.month {
      DaysBeforeMonthStep(a.year, a.month);
      DaysBeforeMonthMonotone(a.year, a.month + 1, b.month);
    } else if a.month > b.month {
      DaysBeforeMonthStep(b.year, b.month);
      DaysBeforeMonthMonotone(b.year, b.month + 1, a.month);
    }
  }

  /** No date comes after LocalDate.MAX. */
  lemma EpochDayAtMostMax(d: LocalDate)
    ensures EpochDay(d) <= EpochDay(MAX_DATE)
    ensures EpochDay(d) == EpochDay(MAX_DATE) ==> d == MAX_DATE
  {
    CompareMatchesEpochDay(d, MAX_DATE);
  }

  /** The `isAfter` half of CompareMatchesEpochDay. */
  lemma IsAfterMatchesEpochDay(a: LocalDate, b: LocalDate)
    ensures IsAfter(a, b) <==> EpochDay(a) > EpochDay(b)
  {
    CompareMatchesEpochDay(a, b);
  }

  // ---------------------------------------------------------------------------
  // `plusDays(1)` and `getDayOfWeek`

  /** `date.plusDays(1)`: the next day, or DateTimeException past LocalDate.MAX. */
  function PlusOneDay(d: LocalDate): (r: Result<LocalDate>)
    ensures r.Thrown? <==> d == MAX_DATE
    ensures r.Thrown? ==> r.exception.cls == DateTimeException
    ensures r.Ok? ==> EpochDay(r.value) == EpochDay(d) + 1
  {
    if d.day < LengthOfMonth(d.year, d.month) then Ok(Date(d.year, d.month, d.day + 1))
    else if d.month < 12 then
      DaysBeforeMonthStep(d.year, d.month);
      Ok(Date(d.year, d.month + 1, 1))
    else if d.year < MAX_YEAR then
      DaysBeforeYearStep(d.year);
      Ok(Date(d.year + 1, 1, 1))
    else Thrown(JavaException(DateTimeException, None, None))
  }

  datatype DayOfWeek = MONDAY | TUESDAY | WEDNESDAY | THURSDAY | FRIDAY | SATURDAY | SUNDAY

  /** The day of the week of an epoch day: `floorMod(epochDay + 3, 7)` counted from Monday. */
  function DayOfWeekAt(epochDay: int): DayOfWeek
  {
    var index := (epochDay + 3) % 7;
    if index == 0 then MONDAY
    else if index == 1 then TUESDAY
    else if index == 2 then WEDNESDAY
    else if index == 3 then THURSDAY
    else if index == 4 then FRIDAY
    else if index == 5 then SATURDAY
    else SUNDAY
  }

  /** `date.getDayOfWeek()`. */
  function GetDayOfWeek(d: LocalDate): DayOfWeek
  {
    DayOfWeekAt(EpochDay(d))
  }

  lemma EpochOriginIsThursday()
    ensures EpochDay(Date(1970, 1, 1)) == 0
    ensures GetDayOfWeek(Date(1970, 1, 1)) == THURSDAY
    ensures GetDayOfWeek(Date(1970, 1, 5)) == MONDAY
  {
  }

  predicate IsWorkday(day: DayOfWeek)
  {
    day != SATURDAY && day != SUNDAY
  }

  /** The epoch day falls on Monday..Friday. */
  predicate IsWorkdayAt(epochDay: int)
  {
    (epochDay + 3) % 7 < 5
  }

  /** IsWorkdayAt holds exactly on the epoch days whose day of the week is Monday..Friday. */
  lemma IsWorkdayAtMatchesDayOfWeek(epochDay: int)
    ensures IsWorkdayAt(epochDay) <==> IsWorkday(DayOfWeekAt(epochDay))
  {
  }

  /** The number of workdays among the epoch days lo..hi (inclusive). */
  function WorkdaysBetween(lo: int, hi: int): nat
    decreases if hi < lo then 0 else hi - lo + 1
  {
    if hi < lo then 0
    else WorkdaysBetween(lo, hi - 1) + (if IsWorkdayAt(hi) then 1 else 0)
  }

  /** The workdays of a range are at most the days of the range. */
  lemma {:induction false} WorkdaysAtMostDays(lo: int, hi: int)
    ensures WorkdaysBetween(lo, hi) <= if hi < lo then 0 else hi - lo + 1
    decreases if hi < lo then 0 else hi - lo + 1
  {
    if lo <= hi {
      WorkdaysAtMostDays(lo, hi - 1);
    }
  }

  /** WorkdaysBetween counts exactly the epoch days of the range that fall on Monday..Friday. */
  lemma {:induction false} WorkdaysIsCount(lo: int, hi: int)
    ensures WorkdaysBetween(lo, hi) == |WorkdaySet(lo, hi)|
    decreases if hi < lo then 0 else hi - lo + 1
  {
    if hi < lo {
      assert WorkdaySet(lo, hi) == {};
    } else {
      WorkdaysIsCount(lo, hi - 1);
      WorkdaySetStep(lo, hi);
      WorkdaysStep(lo, hi);
      if IsWorkdayAt(hi) {
        assert |WorkdaySet(lo, hi - 1) + {hi}| == |WorkdaySet(lo, hi - 1)| + 1;
      }
    }
  }

  /** Extending the range by the day hi adds hi to the set exactly when it is a workday. */
  lemma WorkdaySetStep(lo: int, hi: int)
    requires lo <= hi
    ensures hi !in WorkdaySet(lo, hi - 1)
    ensures WorkdaySet(lo, hi) == if IsWorkdayAt(hi) then WorkdaySet(lo, hi - 1) + {hi} else WorkdaySet(lo, hi - 1)
  {
  }

  /** The workdays among the epoch days lo..hi, as a set. */
  function WorkdaySet(lo: int, hi: int): set<int>
  {
    set e | lo <= e <= hi && IsWorkdayAt(e)
  }

  /** Consecutive epoch days have consecutive days of the week, Sunday wrapping to Monday. */
  lemma DayOfWeekIndexNext(e: int)
    ensures (e + 4) % 7 == if (e + 3) % 7 == 6 then 0 else (e + 3) % 7 + 1
  {
    var q := (e + 3) / 7;
    assert e + 3 == 7 * q + (e + 3) % 7;
    assert e + 4 == 7 * q + (e + 3) % 7 + 1;
    if (e + 3) % 7 == 6 {
      assert e + 4 == 7 * (q + 1);
    }
  }

  /** 1 when the epoch day is a workday, else 0. */
  function WorkdayBit(e: int): nat
  {
    if IsWorkdayAt(e) then 1 else 0
  }

  /** One more day at the end of a range adds its workday bit. */
  lemma WorkdaysStep(lo: int, hi: int)
    requires lo <= hi
    ensures WorkdaysBetween(lo, hi) == WorkdaysBetween(lo, hi - 1) + WorkdayBit(hi)
  {
  }

  /** Seven days of WorkdaysBetween, unfolded. */
  lemma WeekSum(lo: int)
    ensures WorkdaysBetween(lo, lo + 6) ==
              WorkdayBit(lo) + WorkdayBit(lo + 1) + WorkdayBit(lo + 2) + WorkdayBit(lo + 3) +
              WorkdayBit(lo + 4) + WorkdayBit(lo + 5) + WorkdayBit(lo + 6)
  {
    WorkdaysStep(lo, lo);
    WorkdaysStep(lo, lo + 1);
    WorkdaysStep(lo, lo + 2);
    WorkdaysStep(lo, lo + 3);
    WorkdaysStep(lo, lo + 4);
    WorkdaysStep(lo, lo + 5);
    WorkdaysStep(lo, lo + 6);
    assert WorkdaysBetween(lo, lo - 1) == 0;
  }

  /** Seven consecutive days of the week are the seven days, so five of them are workdays. */
  lemma WeekBits(lo: int)
    ensures WorkdayBit(lo) + WorkdayBit(lo + 1) + WorkdayBit(lo + 2) + WorkdayBit(lo + 3) +
            WorkdayBit(lo + 4) + WorkdayBit(lo + 5) + WorkdayBit(lo + 6) == 5
  {
    DayOfWeekIndexNext(lo);
    DayOfWeekIndexNext(lo + 1);
    DayOfWeekIndexNext(lo + 2);
    DayOfWeekIndexNext(lo + 3);
    DayOfWeekIndexNext(lo + 4);
    DayOfWeekIndexNext(lo + 5);
  }

  /** Any seven consecutive days hold exactly five workdays. */
  lemma WeekHasFiveWorkdays(lo: int)
    ensures WorkdaysBetween(lo, lo + 6) == 5
  {
    WeekSum(lo);
    WeekBits(lo);
  }

  /** Counting `date` after the days before it adds one exactly when it falls on Monday..Friday. */
  lemma CountedDayStep(first: int, date: LocalDate)
    requires first <= EpochDay(date)
    ensures WorkdaysBetween(first, EpochDay(date)) ==
              WorkdaysBetween(first, EpochDay(date) - 1) + (if IsWorkday(GetDayOfWeek(date)) then 1 else 0)
  {
    WorkdaysStep(first, EpochDay(date));
    IsWorkdayAtMatchesDayOfWeek(EpochDay(date));
  }

  /**
   * `countWorkdays(startDate, endDate)`: walks from startDate to endDate
   * inclusive, one day at a time, counting Monday..Friday. When endDate is
   * LocalDate.MAX the final `plusDays(1)` throws DateTimeException. The ghost
   * result lists the epoch days of the dates the loop visited, in order.
   */
  method CountWorkdays(startDate: LocalDate, endDate: LocalDate) returns (r: Result<int>, ghost visited: seq<int>)
    ensures IsAfter(startDate, endDate) ==> r == Ok(0) && visited == []
    ensures !IsAfter(startDate, endDate) ==> |visited| == EpochDay(endDate) - EpochDay(startDate) + 1
    ensures forall i :: 0 <= i < |visited| ==> visited[i] == EpochDay(startDate) + i
    ensures r.Thrown? <==> !IsAfter(startDate, endDate) && endDate == MAX_DATE
    ensures r.Thrown? ==> r.exception.cls == DateTimeException
    ensures r.Ok? ==> r.value == WorkdaysBetween(EpochDay(startDate), EpochDay(endDate))
  {
    CompareMatchesEpochDay(startDate, endDate);
    ghost var first, last := EpochDay(startDate), EpochDay(endDate);
    var workdays := 0;
    var date := startDate;
    visited := [];
    while !IsAfter(date, endDate)
      invariant EpochDay(date) == first + |visited|
      invariant first <= last ==> EpochDay(date) <= last + 1
      invariant first > last ==> visited == []
      invariant forall i :: 0 <= i < |visited| ==> visited[i] == first + i
      invariant workdays == WorkdaysBetween(first, EpochDay(date) - 1)
      decreases last - EpochDay(date)
    {
      IsAfterMatchesEpochDay(date, endDate);
      CountedDayStep(first, date);
      visited := visited + [EpochDay(date)];
      var dayOfWeek := GetDayOfWeek(date);
      if dayOfWeek != SATURDAY && dayOfWeek != SUNDAY {
        workdays := workdays + 1;
      }
      var next := PlusOneDay(date);
      if next.Thrown? {
        EpochDayAtMostMax(endDate);
        return Thrown(next.exception), visited;
      }
      date := next.value;
    }
    IsAfterMatchesEpochDay(date, endDate);
    if endDate == MAX_DATE && first <= last {
      EpochDayAtMostMax(date);
    }
    r := Ok(workdays);
  }

  // ---------------------------------------------------------------------------
  // `withYear`, `plusYears` and `calculateNextBirthday`

  function Min(a: int, b: int): int { if a <= b then a else b }

  /** `LocalDate.resolvePreviousValid`: the day is clamped to the length of the month. */
  function ResolvePreviousValid(year: int, month: int, day: int): (r: LocalDate)
    requires MIN_YEAR <= year <= MAX_YEAR && 1 <= month <= 12 && 1 <= day
    ensures r.year == year && r.month == month
    ensures r.day == Min(day, LengthOfMonth(year, month))
  {
    Date(year, month, Min(day, LengthOfMonth(year, month)))
  }

  /** `d.withYear(year)` for a valid year. */
  function WithYear(d: LocalDate, year: int): (r: LocalDate)
    requires MIN_YEAR <= year <= MAX_YEAR
    ensures r.year == year && r.month == d.month
    ensures r.day == d.day || (d.month == 2 && d.day == 29 && r.day == 28 && !IsLeapYear(year))
  {
    if d.year == year then d else ResolvePreviousValid(year, d.month, d.day)
  }

  /** `d.plusYears(years)`: DateTimeException when the new year is out of range. */
  function PlusYears(d: LocalDate, years: int): (r: Result<LocalDate>)
    ensures r.Thrown? <==> !(MIN_YEAR <= d.year + years <= MAX_YEAR)
    ensures r.Thrown? ==> r.exception.cls == DateTimeException
    ensures r.Ok? ==> r.value.year == d.year + years && r.value.month == d.month
    ensures r.Ok? ==> r.value.day == d.day || (d.month == 2 && d.day == 29 && r.value.day == 28 && !IsLeapYear(d.year + years))
  {
    if years == 0 then Ok(d)
    else if !(MIN_YEAR <= d.year + years <= MAX_YEAR) then Thrown(JavaException(DateTimeException, None, None))
    else Ok(ResolvePreviousValid(d.year + years, d.month, d.day))
  }

  /**
   * `calculateNextBirthday(birthday)` with `LocalDate.now()` passed in as
   * today: the birthday moved into today's year, or into the next year when
   * that is not after today.
   */
  function CalculateNextBirthday(birthday: LocalDate, today: LocalDate): (r: Result<LocalDate>)
    ensures r.Ok? ==> IsAfter(r.value, today)
    ensures r.Ok? ==> r.value.year == today.year || r.value.year == today.year + 1
    ensures r.Ok? ==> r.value.month == birthday.month
    ensures r.Ok? ==> r.value.day == birthday.day || (birthday.month == 2 && birthday.day == 29 && r.value.day == 28)
    ensures r.Ok? ==> r.value.day == Min(WithYear(birthday, today.year).day, LengthOfMonth(r.value.year, r.value.month))
    ensures IsAfter(WithYear(birthday, today.year), today) ==> r == Ok(WithYear(birthday, today.year))
    ensures r.Ok? && r.value.year == today.year + 1 ==> !IsAfter(WithYear(birthday, today.year), today)
    ensures r.Thrown? <==> today.year == MAX_YEAR && !IsAfter(WithYear(birthday, today.year), today)
    ensures r.Thrown? ==> r.exception.cls == DateTimeException
  {
    var nextBirthday := WithYear(birthday, today.year);
    if IsBefore(nextBirthday, today) || IsEqual(nextBirthday, today) then PlusYears(nextBirthday, 1)
    else Ok(nextBirthday)
  }

  /**
   * A 29 February birthday seen from a common year stays on the 28th even
   * when the following year is a leap year.
   */
  lemma LeapDayBirthdayStaysClamped()
    ensures CalculateNextBirthday(Date(2000, 2, 29), Date(2023, 3, 1)) == Ok(Date(2024, 2, 28))
    ensures CalculateNextBirthday(Date(2000, 2, 29), Date(2023, 1, 10)) == Ok(Date(2023, 2, 28))
  {
  }

  /** The birthday of `main`, 1990-05-15, seen from 2023-10-20 and from 2023-05-15. */
  lemma NextBirthdayExamples()
    ensures CalculateNextBirthday(Date(1990, 5, 15), Date(2023, 10, 20)) == Ok(Date(2024, 5, 15))
    ensures CalculateNextBirthday(Date(1990, 5, 15), Date(2023, 5, 15)) == Ok(Date(2024, 5, 15))
    ensures CalculateNextBirthday(Date(1990, 5, 15), Date(2023, 5, 14)) == Ok(Date(2023, 5, 15))
  {
  }
}
