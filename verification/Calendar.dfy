/** Plan delays: clamped month arithmetic on dates (src/application/service/activity_write_service.rs). */
module Calendar {
  import opened Prelude

  /** The years the date library can represent. */
  const MIN_YEAR: int := -262143
  const MAX_YEAR: int := 262142
  const I32_MIN: int := -0x8000_0000
  const I32_MAX: int := 0x7FFF_FFFF

  datatype Date = Date(year: int, month: int, day: int)

  predicate Leap(year: int) { (year % 4 == 0 && year % 100 != 0) || year % 400 == 0 }

  function DaysInMonth(year: int, month: int): (n: int)
    ensures 28 <= n <= 31
  {
    match month
    case 1 | 3 | 5 | 7 | 8 | 10 | 12 => 31
    case 4 | 6 | 9 | 11 => 30
    case 2 => if Leap(year) then 29 else 28
    case _ => 31
  }

  predicate Valid(d: Date) { 1 <= d.month <= 12 && 1 <= d.day <= DaysInMonth(d.year, d.month) }

  predicate Supported(d: Date) { Valid(d) && MIN_YEAR <= d.year <= MAX_YEAR }

  /** Months since the start of year 0, and the length of the month with that number. */
  function Month(d: Date): int { d.year * 12 + d.month - 1 }

  function Length(k: int): (n: int)
    ensures 28 <= n <= 31
  {
    DaysInMonth(k / 12, k % 12 + 1)
  }

  // ---- the shift ----

  /** Thirty-two-bit signed arithmetic wraps, in builds without overflow checks; a build with them
      panics where the sum leaves the range. */
  function Wrap32(n: int): int { (n - I32_MIN) % 0x1_0000_0000 + I32_MIN }

  function Clamped(k: int, day: int): Date {
    Date(k / 12, k % 12 + 1, if day <= Length(k) then day else Length(k))
  }

  function ShiftMonths(base: Date, count: int): Date {
    var months := Wrap32(Month(base) + count);
    var year, month := months / 12, months % 12 + 1;
    var limit := DaysInMonth(year, month);
    var day := if base.day <= limit then base.day else limit;
    if Supported(Date(year, month, day)) then Date(year, month, day) else base
  }

  /** The shift on unbounded years. */
  function Shifted(base: Date, count: int): Date { Clamped(Month(base) + count, base.day) }

  /** The result is a valid date exactly `count` months on, on the same day unless that month is
      too short for it. */
  lemma ShiftedIsValid(base: Date, count: int)
    requires Valid(base)
    ensures Valid(Shifted(base, count))
    ensures Month(Shifted(base, count)) == Month(base) + count
    ensures Shifted(base, count).day <= base.day
    ensures Shifted(base, count).day < base.day ==> Shifted(base, count).day == Length(Month(base) + count)
  {
  }

  /** Inside the supported years the code never falls back, and wrapping never shows: a sum that
      overflows lands outside the supported years both before and after it wraps. */
  lemma FallbackOnlyOutsideSupportedYears(base: Date, count: int)
    requires Supported(base) && I32_MIN <= count <= I32_MAX
    ensures ShiftMonths(base, count) == if Supported(Shifted(base, count)) then Shifted(base, count) else base
    ensures Supported(ShiftMonths(base, count))
    ensures Supported(Shifted(base, count)) <==> MIN_YEAR * 12 <= Month(base) + count <= MAX_YEAR * 12 + 11
  {
    var sum := Month(base) + count;
    assert MIN_YEAR * 12 <= Month(base) <= MAX_YEAR * 12 + 11;
    ShiftedIsValid(base, count);
    if I32_MIN <= sum <= I32_MAX {
      assert Wrap32(sum) == sum;
    } else if sum > I32_MAX {
      assert Wrap32(sum) == sum - 0x1_0000_0000;
    } else {
      assert Wrap32(sum) == sum + 0x1_0000_0000;
    }
  }

  // ---- day numbers ----

  /** Days from the start of month 0 to the start of month `k`, counted month by month. */
  function MonthStart(k: int): int
    decreases if k < 0 then -k else k
  {
    if k == 0 then 0
    else if k > 0 then MonthStart(k - 1) + Length(k - 1)
    else MonthStart(k + 1) - Length(k)
  }

  function DayNumber(d: Date): int { MonthStart(Month(d)) + d.day }

  lemma NextMonth(k: int)
    ensures MonthStart(k + 1) == MonthStart(k) + Length(k)
  {
  }

  /** A run of `n` months lasts between 28 and 31 days a month. */
  lemma {:induction false} MonthsLast(k: int, n: nat)
    ensures 28 * n <= MonthStart(k + n) - MonthStart(k) <= 31 * n
  {
    if n > 0 {
      MonthsLast(k, n - 1);
      NextMonth(k + n - 1);
    }
  }

  /** Day numbers order dates as month and day do, so they tell all dates apart. */
  lemma DayNumberOrders(a: Date, b: Date)
    requires Valid(a) && Valid(b)
    ensures DayNumber(a) < DayNumber(b) <==> Month(a) < Month(b) || (Month(a) == Month(b) && a.day < b.day)
    ensures DayNumber(a) == DayNumber(b) <==> a == b
  {
    if Month(a) < Month(b) {
      LaterMonthIsLater(a, b);
    } else if Month(b) < Month(a) {
      LaterMonthIsLater(b, a);
    } else {
      assert a.year == b.year && a.month == b.month;
    }
  }

  lemma LaterMonthIsLater(a: Date, b: Date)
    requires Valid(a) && Valid(b) && Month(a) < Month(b)
    ensures DayNumber(a) < DayNumber(b)
  {
    NextMonth(Month(a));
    MonthsLast(Month(a) + 1, Month(b) - Month(a) - 1);
    assert a.day <= Length(Month(a)) by {
      assert Month(a) / 12 == a.year && Month(a) % 12 + 1 == a.month;
    }
  }

  // ---- what a shift does to the calendar ----

  /** The number of a day of month `k`, clamped to the month's length. */
  function DayOf(k: int, day: int): int { MonthStart(k) + if day <= Length(k) then day else Length(k) }

  lemma DayNumberIsDayOf(d: Date)
    requires Valid(d)
    ensures DayNumber(d) == DayOf(Month(d), d.day)
  {
    assert Month(d) / 12 == d.year && Month(d) % 12 + 1 == d.month;
  }

  lemma ShiftedDayNumber(base: Date, count: int)
    requires Valid(base)
    ensures DayNumber(Shifted(base, count)) == DayOf(Month(base) + count, base.day)
  {
    ShiftedIsValid(base, count);
  }

  /** One month on, the same day, clamped, is 28 to 31 days away. */
  lemma ClampedStep(k: int, day: int)
    ensures 28 <= DayOf(k + 1, day) - DayOf(k, day) <= 31
  {
    NextMonth(k);
  }

  lemma {:induction false} ClampedRun(k: int, n: nat, day: int)
    ensures 28 * n <= DayOf(k + n, day) - DayOf(k, day) <= 31 * n
  {
    if n > 0 {
      ClampedRun(k, n - 1, day);
      ClampedStep(k + n - 1, day);
    }
  }

  lemma DaysBetween(a: Date, b: Date, j: int, k: int, day: int)
    requires j <= k && DayNumber(a) == DayOf(j, day) && DayNumber(b) == DayOf(k, day)
    ensures 28 * (k - j) <= DayNumber(b) - DayNumber(a) <= 31 * (k - j)
  {
    ClampedRun(j, k - j, day);
  }

  lemma ShiftForward(base: Date, n: nat)
    requires Valid(base)
    ensures 28 * n <= DayNumber(Shifted(base, n)) - DayNumber(base) <= 31 * n
  {
    ShiftedDayNumber(base, n);
    DayNumberIsDayOf(base);
    DaysBetween(base, Shifted(base, n), Month(base), Month(base) + n, base.day);
  }

  lemma ShiftBackward(base: Date, n: nat)
    requires Valid(base)
    ensures 28 * n <= DayNumber(base) - DayNumber(Shifted(base, 0 - n)) <= 31 * n
  {
    ShiftedDayNumber(base, 0 - n);
    DayNumberIsDayOf(base);
    DaysBetween(Shifted(base, 0 - n), base, Month(base) + (0 - n), Month(base), base.day);
  }

  /** Shifting by `n` months, either way, moves a date by 28 to 31 days a month, every
      end-of-month clamp and leap year included. */
  lemma ShiftMovesTwentyEightToThirtyOneDays(base: Date, n: nat)
    requires Valid(base)
    ensures 28 * n <= DayNumber(Shifted(base, n)) - DayNumber(base) <= 31 * n
    ensures 28 * n <= DayNumber(base) - DayNumber(Shifted(base, 0 - n)) <= 31 * n
  {
    ShiftForward(base, n);
    ShiftBackward(base, n);
  }

  lemma ShiftIsMonotoneInBase(a: Date, b: Date, n: int)
    requires Valid(a) && Valid(b) && DayNumber(a) <= DayNumber(b)
    ensures DayNumber(Shifted(a, n)) <= DayNumber(Shifted(b, n))
  {
    ShiftedIsValid(a, n);
    ShiftedIsValid(b, n);
    DayNumberOrders(a, b);
    DayNumberOrders(Shifted(b, n), Shifted(a, n));
  }

  lemma ShiftIsStrictInCount(base: Date, m: int, n: int)
    requires Valid(base) && m < n
    ensures DayNumber(Shifted(base, m)) < DayNumber(Shifted(base, n))
  {
    ShiftedIsValid(base, m);
    ShiftedIsValid(base, n);
    LaterMonthIsLater(Shifted(base, m), Shifted(base, n));
  }

  /** Two shifts land in the same month as their sum, never on a later day, and on the same day if
      and only if the stop on the way did not clamp harder than the end. */
  lemma TwoShifts(base: Date, m: int, n: int)
    requires Valid(base)
    ensures var twice, once := Shifted(Shifted(base, m), n), Shifted(base, m + n);
      && Month(twice) == Month(once) && twice.year == once.year && twice.month == once.month
      && twice.day <= once.day
      && (twice == once <==>
        base.day <= Length(Month(base) + m) || Length(Month(base) + m + n) <= Length(Month(base) + m))
      && (base.day <= 28 ==> twice == once)
  {
  }

  /** A shift and its opposite give the date back if and only if the first did not clamp. */
  lemma ShiftBack(base: Date, n: int)
    requires Valid(base)
    ensures Shifted(Shifted(base, n), -n) == base <==> base.day <= Length(Month(base) + n)
  {
  }

  // ---- the calendar is the Gregorian one ----

  function LeapYearsBefore(year: int): int { (year - 1) / 4 - (year - 1) / 100 + (year - 1) / 400 }

  lemma DivisionSteps(n: int)
    ensures n / 4 - (n - 1) / 4 == if n % 4 == 0 then 1 else 0
    ensures n / 100 - (n - 1) / 100 == if n % 100 == 0 then 1 else 0
    ensures n / 400 - (n - 1) / 400 == if n % 400 == 0 then 1 else 0
  {
  }

  lemma Divides(n: int)
    ensures n % 400 == 0 ==> n % 100 == 0
    ensures n % 100 == 0 ==> n % 4 == 0
  {
  }

  lemma LeapYearCounts(year: int)
    ensures LeapYearsBefore(year + 1) - LeapYearsBefore(year) == if Leap(year) then 1 else 0
  {
    DivisionSteps(year);
    Divides(year);
  }

  lemma MonthInYear(year: int, m: int)
    requires 0 <= m < 12
    ensures MonthStart(12 * year + m + 1) == MonthStart(12 * year + m) + DaysInMonth(year, m + 1)
  {
    NextMonth(12 * year + m);
    assert (12 * year + m) / 12 == year && (12 * year + m) % 12 == m;
  }

  lemma YearLength(year: int)
    ensures MonthStart(12 * (year + 1)) == MonthStart(12 * year) + if Leap(year) then 366 else 365
  {
    MonthInYear(year, 0);
    MonthInYear(year, 1);
    MonthInYear(year, 2);
    MonthInYear(year, 3);
    MonthInYear(year, 4);
    MonthInYear(year, 5);
    MonthInYear(year, 6);
    MonthInYear(year, 7);
    MonthInYear(year, 8);
    MonthInYear(year, 9);
    MonthInYear(year, 10);
    MonthInYear(year, 11);
  }

  function NewYear(year: int): int { 365 * year + LeapYearsBefore(year) + 1 }

  lemma YearStep(year: int)
    ensures MonthStart(12 * (year + 1)) - MonthStart(12 * year) == NewYear(year + 1) - NewYear(year)
  {
    YearLength(year);
    LeapYearCounts(year);
  }

  /** Counting month by month agrees with the closed formula for the first of January. */
  lemma {:induction false} YearStart(year: int)
    ensures MonthStart(12 * year) == 365 * year + LeapYearsBefore(year) + 1
    decreases if year < 0 then -year else year
  {
    if year > 0 {
      YearStart(year - 1);
      YearStep(year - 1);
    } else if year < 0 {
      YearStart(year + 1);
      YearStep(year);
    }
  }

  // ---- days and weeks ----

  /** The month a day number falls in. */
  function MonthOf(n: int, guess: int): (k: int)
    ensures MonthStart(k) < n <= MonthStart(k + 1)
    decreases if n <= MonthStart(guess) then MonthStart(guess) - n + 32 else n - MonthStart(guess)
  {
    NextMonth(guess);
    NextMonth(guess - 1);
    if n <= MonthStart(guess) then MonthOf(n, guess - 1)
    else if n > MonthStart(guess + 1) then MonthOf(n, guess + 1)
    else guess
  }

  /** The date with a given day number: every integer has exactly one. */
  function DateOf(n: int): (d: Date)
    ensures Valid(d) && DayNumber(d) == n
  {
    var k := MonthOf(n, 0);
    NextMonth(k);
    Date(k / 12, k % 12 + 1, n - MonthStart(k))
  }

  function ShiftDate(base: Date, count: int, unit: Option<string>): Date {
    if unit == Some("weeks") then DateOf(DayNumber(base) + 7 * count)
    else if unit == Some("months") then ShiftMonths(base, count)
    else DateOf(DayNumber(base) + count)
  }

  /** Day and week delays add up and undo each other exactly; a month delay keeps its place between
      28 and 31 days a month as long as it stays in the supported years. */
  lemma DelaysCompare(base: Date, count: int, unit: Option<string>)
    requires Supported(base) && 0 <= count <= I32_MAX
    requires unit == Some("months") ==> Supported(Shifted(base, count))
    ensures var moved := ShiftDate(base, count, unit);
      && Valid(moved)
      && (unit == Some("months") ==> 28 * count <= DayNumber(moved) - DayNumber(base) <= 31 * count)
      && (unit == Some("weeks") ==> moved == ShiftDate(base, 7 * count, None))
      && (unit != Some("months") ==> ShiftDate(moved, -count, unit) == base)
  {
    if unit == Some("months") {
      FallbackOnlyOutsideSupportedYears(base, count);
      ShiftMovesTwentyEightToThirtyOneDays(base, count);
    } else {
      DayNumberOrders(ShiftDate(ShiftDate(base, count, unit), -count, unit), base);
    }
  }
}
