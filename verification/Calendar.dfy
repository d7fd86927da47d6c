// UTC civil dates from epoch seconds. The division formulas of `utc_date` are
// proved against the Gregorian calendar counted day by day.

module Calendar {
  datatype Date = Date(year: int, month: int, day: int)

  // ----- The Gregorian calendar (section 5.7 and Appendix C of RFC 3339)

  predicate Leap(year: int) {
    year % 4 == 0 && (year % 100 != 0 || year % 400 == 0)
  }

  function MonthLength(year: int, month: int): int {
    if month == 2 then (if Leap(year) then 29 else 28)
    else if month == 4 || month == 6 || month == 9 || month == 11 then 30
    else 31
  }

  predicate Valid(date: Date) {
    1 <= date.month <= 12 && 1 <= date.day <= MonthLength(date.year, date.month)
  }

  const EPOCH := Date(1970, 1, 1)

  function Next(date: Date): Date {
    if date.day < MonthLength(date.year, date.month) then date.(day := date.day + 1)
    else if date.month < 12 then Date(date.year, date.month + 1, 1)
    else Date(date.year + 1, 1, 1)
  }

  /** The date `days` days after the epoch. */
  function DateOf(days: nat): Date {
    if days == 0 then EPOCH else Next(DateOf(days - 1))
  }

  // ----- The program's formulas

  function YearOfEra(doe: nat): int {
    (doe - doe / 1460 + doe / 36524 - doe / 146096) / 365
  }

  /** Days of a 400-year era before its year `yoe`; years begin in March. */
  function YearStart(yoe: int): int {
    365 * yoe + yoe / 4 - yoe / 100
  }

  function MonthIndex(doy: int): int {
    (5 * doy + 2) / 153
  }

  /** The date of day `doy` of the year beginning in March of `year`. */
  function InYear(year: int, doy: int): Date {
    var mp := MonthIndex(doy);
    var m := if mp < 10 then mp + 3 else mp - 9;
    Date(if m <= 2 then year + 1 else year, m, doy - (153 * mp + 2) / 5 + 1)
  }

  /** `utc_date` by days since the epoch, before the year is cut to 32 bits. */
  function CivilDate(days: nat): Date {
    var z := days + 719468;
    var era := z / 146097;
    InEra(era, z - era * 146097)
  }

  /** Day `doe` of the 400-year era `era`. */
  function InEra(era: int, doe: nat): Date {
    var yoe := YearOfEra(doe);
    InYear(yoe + era * 400, doe - YearStart(yoe))
  }

  /** Rust's `as i32`. */
  function ToI32(n: int): int {
    (n + 0x8000_0000) % 0x1_0000_0000 - 0x8000_0000
  }

  function UtcDate(epochSecs: nat): Date {
    var date := CivilDate(epochSecs / 86400);
    date.(year := ToI32(date.year))
  }

  // ----- The year of an era

  /** What `YearOfEra` divides by 365. */
  function Flattened(doe: nat): int {
    doe - doe / 1460 + doe / 36524 - doe / 146096
  }

  lemma FlattenedStep(doe: nat)
    ensures Flattened(doe) <= Flattened(doe + 1)
  {
    var q := doe / 36524;
    assert (doe + 1) / 1460 <= doe / 1460 + 1;
    assert doe / 146096 == q / 4;
    assert (doe + 1) / 146096 == ((doe + 1) / 36524) / 4;
  }

  lemma {:induction false} FlattenedMonotone(a: nat, b: nat)
    requires a <= b
    ensures Flattened(a) <= Flattened(b)
    decreases b
  {
    if a < b {
      FlattenedMonotone(a, b - 1);
      FlattenedStep(b - 1);
    }
  }

  /** Each year starts exactly where the formula passes a multiple of 365. */
  lemma FlattenedAtStart(y: int)
    requires 0 <= y < 400
    ensures YearStart(y) >= 0 && Flattened(YearStart(y)) == 365 * y
    ensures y > 0 ==> YearStart(y) > 0 && Flattened(YearStart(y) - 1) < 365 * y
  {
    var start := YearStart(y);
    var q, r := y / 4, y % 4;
    var a, s := y / 100, y % 100;
    assert start == 1460 * q + (q + 365 * r - a);
    assert start / 1460 == q;
    assert start == 36524 * a + 365 * s + s / 4;
    assert start / 36524 == a;
    if y > 0 {
      assert (start - 1) / 1460 == q;
      assert (start - 1) / 36524 <= a;
    }
  }

  lemma YearOfEraIs(doe: nat, y: int)
    requires 0 <= y < 400 && YearStart(y) <= doe
    requires y < 399 ==> doe < YearStart(y + 1)
    requires doe < 146097
    ensures YearOfEra(doe) == y
  {
    hide Flattened, YearStart, YearOfEra;
    FlattenedAtStart(y);
    FlattenedMonotone(YearStart(y), doe);
    if y < 399 {
      FlattenedAtStart(y + 1);
      FlattenedMonotone(doe, YearStart(y + 1) - 1);
    } else {
      FlattenedMonotone(doe, 146096);
      LastDay();
    }
    YearOfFlattened(doe, y);
  }

  lemma LastDay()
    ensures Flattened(146096) < 365 * 400
  {
  }

  lemma YearOfFlattened(doe: nat, y: int)
    requires 365 * y <= Flattened(doe) < 365 * (y + 1)
    ensures YearOfEra(doe) == y
  {
    assert YearOfEra(doe) == Flattened(doe) / 365;
  }

  lemma StartOfEra()
    ensures YearStart(0) == 0 && YearOfEra(0) == 0 && YearStart(1) == 365
  {
  }

  /** Every day of an era lies in the year the formula gives. */
  lemma {:induction false} YearOfEraFits(doe: nat)
    requires doe < 146097
    ensures var y := YearOfEra(doe);
      0 <= y < 400 && YearStart(y) <= doe && (if y < 399 then doe < YearStart(y + 1) else doe <= 146096)
  {
    hide YearOfEra, YearStart;
    if doe == 0 {
      StartOfEra();
    } else {
      YearOfEraFits(doe - 1);
      var y := YearOfEra(doe - 1);
      YearStartStep(y);
      var same := y == 399 || doe < YearStart(y + 1);
      if !same && y < 398 { YearStartStep(y + 1); }
      YearOfEraIs(doe, if same then y else y + 1);
    }
  }

  lemma YearStartStep(y: int)
    requires 0 <= y
    ensures YearStart(y) + 365 <= YearStart(y + 1)
  {
    var a, b := y / 4, (y + 1) / 4;
    assert y / 100 == a / 25 && (y + 1) / 100 == b / 25;
    assert b == a || b == a + 1;
  }

  function YearDays(yoe: int): int {
    if yoe < 399 then YearStart(yoe + 1) - YearStart(yoe) else 146097 - YearStart(yoe)
  }

  lemma LeapCycle(era: int, y: int)
    ensures Leap(era * 400 + y) <==> Leap(y)
  {
    Fours(era * 100, y);
    Hundreds(era * 4, y);
    FourHundreds(era, y);
  }

  lemma Fours(k: int, y: int)
    ensures (k * 4 + y) % 4 == y % 4
  {
  }

  lemma Hundreds(k: int, y: int)
    ensures (k * 100 + y) % 100 == y % 100
  {
  }

  lemma FourHundreds(k: int, y: int)
    ensures (k * 400 + y) % 400 == y % 400
  {
  }

  /** A year of 366 days ends with a leap day. */
  lemma YearDaysAre(era: int, yoe: int)
    requires 0 <= yoe < 400
    ensures YearDays(yoe) == if Leap(era * 400 + yoe + 1) then 366 else 365
  {
    LeapCycle(era, yoe + 1);
    assert YearDays(yoe) == if Leap(yoe + 1) then 366 else 365 by { YearDaysInEra(yoe); }
    hide Leap, YearDays;
    assert era * 400 + (yoe + 1) == era * 400 + yoe + 1;
  }

  lemma YearDaysInEra(yoe: int)
    requires 0 <= yoe < 400
    ensures YearDays(yoe) == if Leap(yoe + 1) then 366 else 365
  {
    var q, a := yoe / 4, yoe / 100;
    assert (yoe + 1) / 4 == if (yoe + 1) % 4 == 0 then q + 1 else q;
    assert (yoe + 1) / 100 == if (yoe + 1) % 100 == 0 then a + 1 else a;
  }

  // ----- One day further

  lemma NextInYear(year: int, doy: int)
    requires 0 <= doy < if Leap(year + 1) then 365 else 364
    ensures InYear(year, doy + 1) == Next(InYear(year, doy))
  {
    var mp := MonthIndex(doy);
    assert MonthIndex(doy + 1) == mp || MonthIndex(doy + 1) == mp + 1;
  }

  lemma LastOfYear(year: int, doy: int)
    requires doy == if Leap(year + 1) then 365 else 364
    ensures Next(InYear(year, doy)) == InYear(year + 1, 0)
  {
  }

  lemma NextInEra(era: int, doe: nat)
    requires doe < 146096
    ensures InEra(era, doe + 1) == Next(InEra(era, doe))
  {
    hide YearOfEra, YearStart, Next, InYear, Leap;
    var yoe := YearOfEra(doe);
    YearOfEraFits(doe);
    YearDaysAre(era, yoe);
    if yoe < 399 && doe + 1 == YearStart(yoe + 1) {
      StartsNextYear(doe + 1, yoe + 1);
      LastOfYear(yoe + era * 400, doe - YearStart(yoe));
    } else {
      YearOfEraIs(doe + 1, yoe);
      NextInYear(yoe + era * 400, doe - YearStart(yoe));
    }
  }

  lemma LastOfEra(era: int)
    ensures InEra(era + 1, 0) == Next(InEra(era, 146096))
  {
    hide YearOfEra, Next, InYear, Leap;
    YearOfEraIs(146096, 399);
    YearOfEraIs(0, 0);
    YearDaysAre(era, 399);
    LastOfYear(399 + era * 400, 146096 - YearStart(399));
  }

  lemma CivilNext(days: nat)
    ensures CivilDate(days + 1) == Next(CivilDate(days))
  {
    hide InEra, Next;
    var z := days + 719468;
    var era := z / 146097;
    if z - era * 146097 == 146096 {
      LastOfEra(era);
    } else {
      NextInEra(era, z - era * 146097);
    }
  }

  lemma StartsNextYear(doe: nat, y: int)
    requires 0 <= y < 400 && doe == YearStart(y) && doe < 146097
    ensures YearOfEra(doe) == y
  {
    YearStartStep(y);
    YearOfEraIs(doe, y);
  }

  lemma EpochIsDayZero()
    ensures CivilDate(0) == EPOCH
  {
    YearOfEraIs(135080, 369);
  }

  /** The formulas count days exactly as the calendar does. */
  lemma {:induction false} CivilIsGregorian(days: nat)
    ensures CivilDate(days) == DateOf(days)
  {
    hide CivilDate, Next;
    if days == 0 {
      EpochIsDayZero();
    } else {
      CivilIsGregorian(days - 1);
      CivilNext(days - 1);
    }
  }

  /** The program's answer is the Gregorian date of the timestamp exactly when
      the year fits its 32-bit result. */
  lemma UtcDateIsGregorian(epochSecs: nat)
    ensures UtcDate(epochSecs) == DateOf(epochSecs / 86400) <==> DateOf(epochSecs / 86400).year < 0x8000_0000
  {
    hide CivilDate, DateOf, Valid;
    CivilIsGregorian(epochSecs / 86400);
    DateOfValid(epochSecs / 86400);
  }

  // ----- Counting days back

  /** Days from the epoch to the first day of `year`. */
  function DaysBefore(year: int): int
    requires year >= 1970
  {
    if year == 1970 then 0 else DaysBefore(year - 1) + (if Leap(year - 1) then 366 else 365)
  }

  /** Days of `year` before its month `month`. */
  function MonthsBefore(year: int, month: int): int
    requires 1 <= month <= 13
  {
    if month == 1 then 0 else MonthsBefore(year, month - 1) + MonthLength(year, month - 1)
  }

  function DayNumber(date: Date): int
    requires Valid(date) && date.year >= 1970
  {
    DaysBefore(date.year) + MonthsBefore(date.year, date.month) + date.day - 1
  }

  lemma {:induction false} DateOfValid(days: nat)
    ensures Valid(DateOf(days)) && DateOf(days).year >= 1970
  {
    if days > 0 { DateOfValid(days - 1); }
  }

  lemma WholeYear(year: int)
    ensures MonthsBefore(year, 12) + 31 == if Leap(year) then 366 else 365
  {
    assert MonthsBefore(year, 2) == 31;
    assert MonthsBefore(year, 4) == MonthsBefore(year, 2) + MonthLength(year, 2) + 31;
    assert MonthsBefore(year, 6) == MonthsBefore(year, 4) + 61;
    assert MonthsBefore(year, 8) == MonthsBefore(year, 6) + 61;
    assert MonthsBefore(year, 10) == MonthsBefore(year, 8) + 61;
    assert MonthsBefore(year, 12) == MonthsBefore(year, 10) + 61;
  }

  lemma DayNumberNext(date: Date)
    requires Valid(date) && date.year >= 1970
    ensures Valid(Next(date)) && DayNumber(Next(date)) == DayNumber(date) + 1
  {
    WholeYear(date.year);
  }

  /** Counting a date's days from the epoch undoes `UtcDate`, whatever the time
      of day. */
  lemma {:induction false} DayNumberOf(days: nat)
    ensures Valid(DateOf(days)) && DateOf(days).year >= 1970 && DayNumber(DateOf(days)) == days
  {
    DateOfValid(days);
    if days > 0 {
      DayNumberOf(days - 1);
      DayNumberNext(DateOf(days - 1));
    }
  }

  function Previous(date: Date): Date {
    if date.day > 1 then date.(day := date.day - 1)
    else if date.month > 1 then Date(date.year, date.month - 1, MonthLength(date.year, date.month - 1))
    else Date(date.year - 1, 12, 31)
  }

  lemma PreviousOk(date: Date)
    requires Valid(date) && date.year >= 1970 && date != EPOCH
    ensures var before := Previous(date); Valid(before) && before.year >= 1970 && Next(before) == date
  {
  }

  /** Every calendar date from 1970 on is the date of some day, and of one
      only. */
  lemma {:induction false} EveryDateReached(date: Date)
    requires Valid(date) && date.year >= 1970
    ensures DayNumber(date) >= 0 && CivilDate(DayNumber(date)) == date
    decreases date.year, date.month, date.day
  {
    hide CivilDate, DateOf;
    if date == EPOCH {
      EpochIsDayZero();
    } else {
      var before := Previous(date);
      PreviousOk(date);
      hide Next, DayNumber;
      EveryDateReached(before);
      DayNumberNext(before);
      CivilNext(DayNumber(before));
    }
  }
}
