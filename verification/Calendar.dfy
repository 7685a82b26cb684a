/**
 * Day numbers and Gregorian dates: unix_to_ymdhms and days_from_civil (server/src/main.rs), compared with a
 * calendar that simply counts days.
 */
module Calendar {
  datatype Date = Date(year: int, month: int, day: int)

  // ---------------------------------------------------------------- the calendar, by counting

  predicate IsLeap(year: int) {
    year % 4 == 0 && (year % 100 != 0 || year % 400 == 0)
  }

  function DaysInMonth(year: int, month: int): int {
    if month == 2 then (if IsLeap(year) then 29 else 28)
    else if month in {4, 6, 9, 11} then 30
    else 31
  }

  predicate ValidDate(d: Date) {
    1 <= d.month <= 12 && 1 <= d.day <= DaysInMonth(d.year, d.month)
  }

  function NextDay(d: Date): Date {
    if d.day < DaysInMonth(d.year, d.month) then d.(day := d.day + 1)
    else if d.month < 12 then Date(d.year, d.month + 1, 1)
    else Date(d.year + 1, 1, 1)
  }

  const EPOCH := Date(1970, 1, 1)

  /** The date `days` days after 1 January 1970. */
  function CountedDate(days: nat): Date {
    if days == 0 then EPOCH else NextDay(CountedDate(days - 1))
  }

  // ---------------------------------------------------------------- days_from_civil

  /** Rust's division truncates; here every dividend that can be negative is handled as the code does. */
  function DaysFromCivil(d: Date): int {
    var year := d.year - if d.month <= 2 then 1 else 0;
    // (year - 399) / 400 truncates to the floor of year / 400 for a negative year.
    var era := year / 400;
    var yearOfEra := year - era * 400;
    var monthOfYear := d.month + if d.month > 2 then -3 else 9;
    var dayOfYear := (153 * monthOfYear + 2) / 5 + d.day - 1;
    var dayOfEra := yearOfEra * 365 + yearOfEra / 4 - yearOfEra / 100 + dayOfYear;
    era * 146097 + dayOfEra - 719468
  }

  // ---------------------------------------------------------------- unix_to_ymdhms, the date part

  function YearOfEra(dayOfEra: int): int {
    (dayOfEra - dayOfEra / 1460 + dayOfEra / 36524 - dayOfEra / 146096) / 365
  }

  function CivilFromDays(days: nat): Date {
    var z := days + 719468;
    var era := z / 146097;
    var doe := z - era * 146097;
    var yoe := YearOfEra(doe);
    var y := yoe + era * 400;
    var doy := doe - (365 * yoe + yoe / 4 - yoe / 100);
    var mp := (5 * doy + 2) / 153;
    var day := doy - (153 * mp + 2) / 5 + 1;
    var month := mp + if mp < 10 then 3 else -9;
    Date(y + if month <= 2 then 1 else 0, month, day)
  }

  // ---------------------------------------------------------------- one era

  /** Days of the era before its year y (years start in March). */
  function YearStart(y: int): int {
    365 * y + y / 4 - y / 100
  }

  /** Does the March-based year y of an era end with a 29 February? */
  predicate LongYear(y: int) {
    y % 4 == 3 && (y % 100 != 99 || y == 399)
  }

  function YearLength(y: int): int {
    if LongYear(y) then 366 else 365
  }

  lemma CenturiesPassed(c: int, t: int)
    requires 0 <= c <= 3 && 0 <= t <= 36524 && (t == 36524 ==> c == 3)
    ensures var doe := 36524 * c + t; doe / 36524 - doe / 146096 == c
  {
    if t == 36524 {} else if c == 0 {} else if c == 1 {} else if c == 2 {} else {}
  }

  lemma LeapDaysPassed(c: int, q: int, s: int)
    requires 0 <= c <= 3 && 0 <= q <= 24 && 0 <= s <= 1460
    ensures (36524 * c + 1461 * q + s) / 1460 == 25 * c + q + (24 * c + q + s) / 1460
  {
    assert 36524 * c + 1461 * q + s == 1460 * (25 * c + q) + (24 * c + q + s);
  }

  lemma YearsPassed(c: int, q: int, r: int, doy: int, k: int)
    requires 0 <= doy - k < 365
    ensures (36500 * c + 1460 * q + 365 * r + doy - k) / 365 == 100 * c + 4 * q + r
  {
    assert 36500 * c + 1460 * q + 365 * r + doy - k == 365 * (100 * c + 4 * q + r) + (doy - k);
  }

  lemma YearSplits(y: int) returns (c: int, q: int, r: int)
    requires 0 <= y < 400
    ensures y == 100 * c + 4 * q + r && 0 <= c <= 3 && 0 <= q <= 24 && 0 <= r <= 3
    ensures YearStart(y) == 36524 * c + 1461 * q + 365 * r
    ensures LongYear(y) <==> r == 3 && (q != 24 || c == 3)
  {
    c, q, r := y / 100, (y % 100) / 4, y % 4;
    assert y / 4 == 25 * c + q;
  }

  /** The closed formula finds the year of any day of any year of the era. */
  lemma YearOfEraInverts(y: int, doy: int)
    requires 0 <= y < 400 && 0 <= doy < YearLength(y)
    ensures 0 <= YearStart(y) + doy < 146097
    ensures YearOfEra(YearStart(y) + doy) == y
  {
    var c, q, r := YearSplits(y);
    var s := 365 * r + doy;
    var k := (24 * c + q + s) / 1460;
    CenturiesPassed(c, 1461 * q + s);
    LeapDaysPassed(c, q, s);
    YearsPassed(c, q, r, doy, k);
  }

  lemma EraEnds()
    ensures YearStart(0) == 0 && YearStart(399) + 366 == 146097
  {
  }

  lemma YearStartNext(y: int)
    requires 0 <= y < 399
    ensures YearStart(y + 1) == YearStart(y) + YearLength(y)
  {
    var c, q, r := YearSplits(y);
    var c', q', r' := YearSplits(y + 1);
  }

  /** Every day of the era lies in one of its years. */
  lemma {:induction false} YearFound(doe: int, y: int)
    requires 0 <= y < 400 && 0 <= doe < YearStart(y) + YearLength(y)
    ensures exists x :: 0 <= x < 400 && YearStart(x) <= doe < YearStart(x) + YearLength(x)
    decreases y
  {
    if YearStart(y) <= doe {
    } else {
      YearStartNext(y - 1);
      YearFound(doe, y - 1);
    }
  }

  lemma YearOfDay(doe: int) returns (y: int, doy: int)
    requires 0 <= doe < 146097
    ensures 0 <= y < 400 && 0 <= doy < YearLength(y) && doe == YearStart(y) + doy && YearOfEra(doe) == y
  {
    EraEnds();
    YearFound(doe, 399);
    y :| 0 <= y < 400 && YearStart(y) <= doe < YearStart(y) + YearLength(y);
    doy := doe - YearStart(y);
    YearOfEraInverts(y, doy);
  }

  // ---------------------------------------------------------------- months of a March-based year

  function MonthStart(mp: int): int {
    (153 * mp + 2) / 5
  }

  function DateOf(year: int, doy: int): Date {
    var mp := (5 * doy + 2) / 153;
    var month := mp + if mp < 10 then 3 else -9;
    Date(year + if month <= 2 then 1 else 0, month, doy - MonthStart(mp) + 1)
  }

  lemma MonthTable()
    ensures MonthStart(0) == 0 && MonthStart(1) == 31 && MonthStart(2) == 61 && MonthStart(3) == 92
    ensures MonthStart(4) == 122 && MonthStart(5) == 153 && MonthStart(6) == 184 && MonthStart(7) == 214
    ensures MonthStart(8) == 245 && MonthStart(9) == 275 && MonthStart(10) == 306 && MonthStart(11) == 337
  {
  }

  lemma MonthOfDay(doy: int, mp: int)
    requires 0 <= doy < 366 && 0 <= mp < 12
    requires MonthStart(mp) <= doy && (mp < 11 ==> doy < MonthStart(mp + 1))
    ensures (5 * doy + 2) / 153 == mp
  {
    MonthTable();
  }

  lemma MonthExists(doy: int) returns (mp: int)
    requires 0 <= doy < 366
    ensures 0 <= mp < 12 && MonthStart(mp) <= doy && (mp < 11 ==> doy < MonthStart(mp + 1))
    ensures (5 * doy + 2) / 153 == mp
  {
    MonthTable();
    mp := if doy < 31 then 0 else if doy < 61 then 1 else if doy < 92 then 2 else if doy < 122 then 3
      else if doy < 153 then 4 else if doy < 184 then 5 else if doy < 214 then 6 else if doy < 245 then 7
      else if doy < 275 then 8 else if doy < 306 then 9 else if doy < 337 then 10 else 11;
  }

  /** `long`: the March-based year ends with a 29 February, that is, the next calendar year is a leap year. */
  function MonthLength(mp: int, long: bool): int {
    if mp == 11 then (if long then 29 else 28)
    else if mp in {1, 3, 6, 8} then 30
    else 31
  }

  lemma MonthLengths(mp: int, year: int)
    requires 0 <= mp < 12
    ensures mp < 11 ==> MonthStart(mp + 1) == MonthStart(mp) + MonthLength(mp, IsLeap(year + 1))
    ensures MonthStart(11) + MonthLength(11, IsLeap(year + 1)) == if IsLeap(year + 1) then 366 else 365
    ensures var month := mp + if mp < 10 then 3 else -9;
      DaysInMonth(year + if month <= 2 then 1 else 0, month) == MonthLength(mp, IsLeap(year + 1))
  {
    MonthTable();
  }

  lemma EraKeepsRemainders(era: int, n: int)
    ensures (era * 400 + n) % 4 == n % 4 && (era * 400 + n) % 100 == n % 100 && (era * 400 + n) % 400 == n % 400
  {
    RemainderBy4(100 * era, n);
    RemainderBy100(4 * era, n);
    RemainderBy400(era, n);
  }

  lemma RemainderBy4(multiple: int, n: int)
    ensures (multiple * 4 + n) % 4 == n % 4
  {
  }

  lemma RemainderBy100(multiple: int, n: int)
    ensures (multiple * 100 + n) % 100 == n % 100
  {
  }

  lemma RemainderBy400(multiple: int, n: int)
    ensures (multiple * 400 + n) % 400 == n % 400
  {
  }

  lemma LeapOfEra(era: int, y: int)
    requires 0 <= y < 400
    ensures IsLeap(era * 400 + y + 1) <==> LongYear(y)
  {
    EraKeepsRemainders(era, y + 1);
    LeapOfYear(y);
  }

  lemma LeapOfYear(y: int)
    requires 0 <= y < 400
    ensures IsLeap(y + 1) <==> LongYear(y)
  {
  }

  lemma DateValid(year: int, doy: int)
    requires 0 <= doy < if IsLeap(year + 1) then 366 else 365
    ensures ValidDate(DateOf(year, doy))
  {
    var mp := MonthExists(doy);
    MonthLengths(mp, year);
  }

  lemma DateSteps(year: int, doy: int)
    requires 0 <= doy < if IsLeap(year + 1) then 366 else 365
    ensures NextDay(DateOf(year, doy)) ==
      if doy + 1 < (if IsLeap(year + 1) then 366 else 365) then DateOf(year, doy + 1) else DateOf(year + 1, 0)
  {
    var mp := MonthExists(doy);
    MonthLengths(mp, year);
    if doy + 1 < (if IsLeap(year + 1) then 366 else 365) {
      var mp' := MonthExists(doy + 1);
      MonthTable();
    }
  }

  // ---------------------------------------------------------------- the conversions

  /** The day number as era, March-based year of the era and day of that year. */
  lemma DayDecomposed(days: nat) returns (era: int, y: int, doy: int)
    ensures era >= 0 && 0 <= y < 400 && 0 <= doy < YearLength(y)
    ensures days + 719468 == era * 146097 + YearStart(y) + doy
    ensures CivilFromDays(days) == DateOf(era * 400 + y, doy)
  {
    var z := days + 719468;
    era := z / 146097;
    var doe := z - era * 146097;
    y, doy := YearOfDay(doe);
    CivilOfDay(days, era, doe, y, doy);
  }

  lemma EraOf(era: int, doe: int)
    requires 0 <= doe < 146097
    ensures (era * 146097 + doe) / 146097 == era
  {
  }

  lemma CivilOfDay(days: nat, era: int, doe: int, y: int, doy: int)
    requires days + 719468 == era * 146097 + doe && 0 <= doe < 146097
    requires y == YearOfEra(doe) && doy == doe - YearStart(y) && 0 <= doy < 366
    ensures CivilFromDays(days) == DateOf(era * 400 + y, doy)
  {
    EraOf(era, doe);
  }

  lemma CivilOfParts(era: int, y: int, doy: int)
    requires 0 <= era && 0 <= y < 400 && 0 <= doy < YearLength(y)
    requires era * 146097 + YearStart(y) + doy >= 719468
    ensures CivilFromDays(era * 146097 + YearStart(y) + doy - 719468) == DateOf(era * 400 + y, doy)
  {
    YearOfEraInverts(y, doy);
    CivilOfDay(era * 146097 + YearStart(y) + doy - 719468, era, YearStart(y) + doy, y, doy);
  }

  lemma SameYearStep(era: int, y: int, doy: int)
    requires 0 <= y < 400 && 0 <= doy && doy + 1 < YearLength(y)
    ensures DateOf(era * 400 + y, doy + 1) == NextDay(DateOf(era * 400 + y, doy))
  {
    LeapOfEra(era, y);
    DateSteps(era * 400 + y, doy);
  }

  lemma NewYearStep(era: int, y: int)
    requires 0 <= y < 400
    ensures DateOf(era * 400 + y + 1, 0) == NextDay(DateOf(era * 400 + y, YearLength(y) - 1))
  {
    LeapOfEra(era, y);
    DateSteps(era * 400 + y, YearLength(y) - 1);
  }

  lemma CivilNamed(days: nat, era: int, y: int, doy: int, year: int)
    requires 0 <= era && 0 <= y < 400 && 0 <= doy < YearLength(y)
    requires days + 719468 == era * 146097 + YearStart(y) + doy && year == era * 400 + y
    ensures CivilFromDays(days) == DateOf(year, doy)
  {
    CivilOfParts(era, y, doy);
  }

  lemma YearTurns(days: nat, era: int, y: int)
    requires era >= 0 && 0 <= y < 400
    requires days + 719468 == era * 146097 + YearStart(y) + YearLength(y)
    ensures CivilFromDays(days) == DateOf(era * 400 + y + 1, 0)
  {
    if y < 399 {
      YearStartNext(y);
      CivilNamed(days, era, y + 1, 0, era * 400 + y + 1);
    } else {
      EraEnds();
      CivilNamed(days, era + 1, 0, 0, era * 400 + y + 1);
    }
  }

  lemma NextDayNamed(days: nat, era: int, y: int, doy: int)
    requires 0 <= era && 0 <= y < 400 && 0 <= doy < YearLength(y)
    requires days == era * 146097 + YearStart(y) + doy + 1 - 719468
    ensures CivilFromDays(days) == NextDay(DateOf(era * 400 + y, doy))
  {
    if doy + 1 < YearLength(y) {
      SameYearStep(era, y, doy);
      CivilNamed(days, era, y, doy + 1, era * 400 + y);
    } else {
      NewYearStep(era, y);
      YearTurns(days, era, y);
    }
  }

  lemma CivilSteps(days: nat)
    ensures CivilFromDays(days + 1) == NextDay(CivilFromDays(days))
  {
    var era, y, doy := DayDecomposed(days);
    NextDayNamed(days + 1, era, y, doy);
  }

  lemma EpochIsDayZero()
    ensures CivilFromDays(0) == EPOCH
  {
    assert YearOfEra(719468 - 4 * 146097) == 369;
  }

  lemma {:induction false} CountsLike(f: nat -> Date, n: nat)
    requires f(0) == EPOCH && forall k: nat :: f(k + 1) == NextDay(f(k))
    ensures f(n) == CountedDate(n)
  {
    if n > 0 {
      CountsLike(f, n - 1);
      assert f((n - 1) + 1) == NextDay(f(n - 1));
    }
  }

  /** The closed formula names the date that counting days from 1 January 1970 reaches. */
  lemma CivilCounts(days: nat)
    ensures CivilFromDays(days) == CountedDate(days)
  {
    EpochIsDayZero();
    forall k: nat ensures CivilFromDays(k + 1) == NextDay(CivilFromDays(k)) { CivilSteps(k); }
    CountsLike(CivilFromDays, days);
  }

  lemma PartsOfDate(d: Date) returns (year: int, doy: int)
    requires ValidDate(d)
    ensures 0 <= doy < if IsLeap(year + 1) then 366 else 365
    ensures d == DateOf(year, doy)
    ensures year == d.year - if d.month <= 2 then 1 else 0
    ensures doy == MonthStart(d.month + if d.month > 2 then -3 else 9) + d.day - 1
  {
    var mp := d.month + if d.month > 2 then -3 else 9;
    year := d.year - if d.month <= 2 then 1 else 0;
    doy := MonthStart(mp) + d.day - 1;
    MonthLengths(mp, year);
    MonthTable();
    MonthOfDay(doy, mp);
  }

  lemma DaysOfParts(d: Date, year: int, doy: int)
    requires ValidDate(d)
    requires year == d.year - if d.month <= 2 then 1 else 0
    requires doy == MonthStart(d.month + if d.month > 2 then -3 else 9) + d.day - 1
    ensures DaysFromCivil(d) == (year / 400) * 146097 + YearStart(year - (year / 400) * 400) + doy - 719468
  {
  }

  lemma DaysOfDate(era: int, y: int, doy: int)
    requires 0 <= y < 400 && 0 <= doy < YearLength(y)
    ensures ValidDate(DateOf(era * 400 + y, doy))
    ensures DaysFromCivil(DateOf(era * 400 + y, doy)) == era * 146097 + YearStart(y) + doy - 719468
  {
    LeapOfEra(era, y);
    var d := DateOf(era * 400 + y, doy);
    DateValid(era * 400 + y, doy);
    var mp := MonthExists(doy);
    assert (era * 400 + y) / 400 == era;
    DaysOfParts(d, era * 400 + y, doy);
  }

  /** Every day number from 1970 on names a valid date, which days_from_civil maps back. */
  lemma DayRoundTrip(days: nat)
    ensures ValidDate(CivilFromDays(days))
    ensures DaysFromCivil(CivilFromDays(days)) == days
  {
    var era, y, doy := DayDecomposed(days);
    DaysOfDate(era, y, doy);
  }

  lemma NotBeforeEpoch(d: Date, year: int, doy: int)
    requires ValidDate(d) && d.year >= 1970
    requires year == d.year - if d.month <= 2 then 1 else 0
    requires doy == MonthStart(d.month + if d.month > 2 then -3 else 9) + d.day - 1 && doy >= 0
    ensures year >= 1969 && (year == 1969 ==> doy >= 306)
  {
    MonthTable();
  }

  lemma {:induction false} YearStartGrows(x: int, y: int)
    requires 0 <= x <= y < 400
    ensures YearStart(x) <= YearStart(y)
  {
  }

  lemma PastEpoch(era: int, y: int, doy: int)
    requires 0 <= y < 400 && 0 <= doy
    requires era * 400 + y >= 1969 && (era * 400 + y == 1969 ==> doy >= 306)
    ensures era >= 4 && era * 146097 + YearStart(y) + doy >= 719468
  {
    if era == 4 {
      YearStartGrows(369, y);
      if y >= 370 {
        YearStartGrows(370, y);
      }
    }
  }

  /** Every valid date from 1970 on has a day number, which unix_to_ymdhms maps back. */
  lemma DateRoundTrip(d: Date)
    requires ValidDate(d) && d.year >= 1970
    ensures DaysFromCivil(d) >= 0 && CivilFromDays(DaysFromCivil(d)) == d
  {
    var year, doy := PartsOfDate(d);
    NotBeforeEpoch(d, year, doy);
    var era := year / 400;
    var y := year - era * 400;
    LeapOfEra(era, y);
    DaysOfParts(d, year, doy);
    PastEpoch(era, y, doy);
    CivilNamed(DaysFromCivil(d), era, y, doy, year);
  }

  // ---------------------------------------------------------------- order

  predicate Earlier(a: Date, b: Date) {
    a.year < b.year || (a.year == b.year && (a.month < b.month || (a.month == b.month && a.day < b.day)))
  }

  lemma NextDayIsLater(d: Date)
    requires ValidDate(d)
    ensures Earlier(d, NextDay(d))
  {
  }

  lemma EarlierTransitive(a: Date, b: Date, c: Date)
    requires Earlier(a, b) && Earlier(b, c)
    ensures Earlier(a, c)
  {
  }

  lemma CountedAscend(a: nat, b: nat)
    requires a < b
    requires forall n: nat :: ValidDate(CountedDate(n))
    ensures Earlier(CountedDate(a), CountedDate(b))
    decreases b
  {
    NextDayIsLater(CountedDate(b - 1));
    if a < b - 1 {
      CountedAscend(a, b - 1);
      EarlierTransitive(CountedDate(a), CountedDate(b - 1), CountedDate(b));
    }
  }

  lemma CountedValid()
    ensures forall n: nat :: ValidDate(CountedDate(n))
  {
    forall n: nat ensures ValidDate(CountedDate(n)) {
      CivilCounts(n);
      DayRoundTrip(n);
    }
  }

  /** A later day has a later date. */
  lemma DatesAscend(a: nat, b: nat)
    requires a < b
    ensures Earlier(CivilFromDays(a), CivilFromDays(b))
  {
    CountedValid();
    CountedAscend(a, b);
    CivilCounts(a);
    CivilCounts(b);
  }
}
