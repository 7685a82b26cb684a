/**
 * The packed FAT date and time: system_time_to_dos, dos_time_to_unix and set_file_dos_time
 * (server/src/main.rs).  Shifts and masks are written as multiplication, division and remainder; the fields
 * do not overlap (FieldsDoNotOverlap), so joining them with "or" is addition.
 */
module DosStamp {
  import opened Wrappers
  import opened Calendar

  /** A cast to i32 keeps the low 32 bits. */
  function AsI32(x: int): int {
    (x + 0x8000_0000) % 0x1_0000_0000 - 0x8000_0000
  }

  lemma CastKeepsLowBits(x: int)
    ensures -0x8000_0000 <= AsI32(x) < 0x8000_0000 && (x - AsI32(x)) % 0x1_0000_0000 == 0
  {
  }

  datatype Fields = Fields(year: int, month: int, day: int, hour: int, minute: int, twoSeconds: int)

  predicate InFields(f: Fields) {
    && 0 <= f.year < 128 && 0 <= f.month < 16 && 0 <= f.day < 32
    && 0 <= f.hour < 32 && 0 <= f.minute < 64 && 0 <= f.twoSeconds < 32
  }

  function Pack(f: Fields): u32
    requires InFields(f)
  {
    ((((f.year * 16 + f.month) * 32 + f.day) * 32 + f.hour) * 64 + f.minute) * 32 + f.twoSeconds
  }

  function Unpack(dos: u32): (f: Fields)
    ensures InFields(f)
  {
    Fields((dos / 0x200_0000) % 128, (dos / 0x20_0000) % 16, (dos / 0x1_0000) % 32,
           (dos / 0x800) % 32, (dos / 0x20) % 64, dos % 32)
  }

  /** The shifted fields share no bit: "or" is addition, which never carries from one field into the next. */
  lemma FieldsDoNotOverlap(y: bv32, mo: bv32, d: bv32, h: bv32, mi: bv32, s: bv32)
    requires y < 128 && mo < 16 && d < 32 && h < 32 && mi < 64 && s < 32
    ensures (y << 25) | (mo << 21) | (d << 16) | (h << 11) | (mi << 5) | s ==
      (y << 25) + (mo << 21) + (d << 16) + (h << 11) + (mi << 5) + s
  {
  }

  lemma PackUnpack(dos: u32)
    ensures Pack(Unpack(dos)) == dos
  {
    var a := dos / 32;
    var b := a / 64;
    var c := b / 32;
    var d := c / 32;
    var e := d / 16;
    assert dos / 0x20 == a && dos / 0x800 == b && dos / 0x1_0000 == c && dos / 0x20_0000 == d && dos / 0x200_0000 == e;
  }

  // Cutting a number at a field's first bit.
  lemma CutAt5(high: int, low: int)
    requires 0 <= low < 0x20
    ensures (high * 0x20 + low) / 0x20 == high && (high * 0x20 + low) % 0x20 == low
  {
  }

  lemma CutAt6(high: int, low: int)
    requires 0 <= low < 0x40
    ensures (high * 0x40 + low) % 0x40 == low
  {
  }

  lemma CutAt4(high: int, low: int)
    requires 0 <= low < 0x10
    ensures (high * 0x10 + low) % 0x10 == low
  {
  }

  lemma CutAt11(high: int, low: int)
    requires 0 <= low < 0x800
    ensures (high * 0x800 + low) / 0x800 == high
  {
  }

  lemma CutAt16(high: int, low: int)
    requires 0 <= low < 0x1_0000
    ensures (high * 0x1_0000 + low) / 0x1_0000 == high
  {
  }

  lemma CutAt21(high: int, low: int)
    requires 0 <= low < 0x20_0000
    ensures (high * 0x20_0000 + low) / 0x20_0000 == high
  {
  }

  lemma CutAt25(high: int, low: int)
    requires 0 <= low < 0x200_0000
    ensures (high * 0x200_0000 + low) / 0x200_0000 == high
  {
  }

  lemma UnpackPack(f: Fields)
    requires InFields(f)
    ensures Unpack(Pack(f)) == f
  {
    var e := f.year;
    var d := e * 16 + f.month;
    var c := d * 32 + f.day;
    var b := c * 32 + f.hour;
    var a := b * 64 + f.minute;
    CutAt5(a, f.twoSeconds);
    CutAt11(b, f.minute * 32 + f.twoSeconds);
    CutAt16(c, (f.hour * 64 + f.minute) * 32 + f.twoSeconds);
    CutAt21(d, ((f.day * 32 + f.hour) * 64 + f.minute) * 32 + f.twoSeconds);
    CutAt25(e, (((f.month * 32 + f.day) * 32 + f.hour) * 64 + f.minute) * 32 + f.twoSeconds);
    CutAt6(b, f.minute);
    CutAt5(c, f.hour);
    CutAt5(d, f.day);
    CutAt4(e, f.month);
  }

  // ---------------------------------------------------------------- conversions

  function DateFields(d: Date, seconds: int): Fields
    requires 0 <= seconds < 86400
  {
    Fields((AsI32(d.year) - 1980) % 128, d.month, d.day, seconds / 3600, (seconds % 3600) / 60, (seconds % 60) / 2)
  }

  /** Years past the seventh bit are lost in the shift. */
  function StampOf(d: Date, seconds: int): u32
    requires ValidDate(d) && 0 <= seconds < 86400
  {
    if AsI32(d.year) < 1980 then 0 else Pack(DateFields(d, seconds))
  }

  function SystemTimeToDos(unix: nat): u32 {
    DayRoundTrip(unix / 86400);
    StampOf(CivilFromDays(unix / 86400), unix % 86400)
  }

  function DosTimeToUnix(dos: u32): Option<int> {
    var f := Unpack(dos);
    if !(1 <= f.month <= 12) || !(1 <= f.day <= 31) || f.hour > 23 || f.minute > 59 || f.twoSeconds * 2 > 59 then None
    else Some(DaysFromCivil(Date(f.year + 1980, f.month, f.day)) * 86400
              + f.hour * 3600 + f.minute * 60 + f.twoSeconds * 2)
  }

  function StampDate(dos: u32): Date {
    Date(Unpack(dos).year + 1980, Unpack(dos).month, Unpack(dos).day)
  }

  /** The stamp names a date and a time that exist. */
  predicate RealStamp(dos: u32) {
    var f := Unpack(dos);
    ValidDate(StampDate(dos)) && f.hour <= 23 && f.minute <= 59 && f.twoSeconds <= 29
  }

  // ---------------------------------------------------------------- what is accepted and what is stored

  /** Fields are checked one by one, not the day against its month: 31 February passes. */
  lemma AcceptedStamps(dos: u32)
    ensures DosTimeToUnix(dos).Some? <==>
      && 1 <= (dos / 0x20_0000) % 16 <= 12 && 1 <= (dos / 0x1_0000) % 32
      && (dos / 0x800) % 32 < 24 && (dos / 0x20) % 64 < 60 && dos % 32 < 30
  {
  }

  /** Times before 1980 have the stamp 0, and later years come round after 128. */
  lemma YearsOutOfRange(d: Date, seconds: int)
    requires ValidDate(d) && 0 <= seconds < 86400 && 0 <= d.year < 0x8000_0000
    ensures d.year < 1980 ==> StampOf(d, seconds) == 0
    ensures d.year >= 1980 ==>
      StampOf(d, seconds) == Pack(Fields((d.year - 1980) % 128, d.month, d.day, seconds / 3600, (seconds % 3600) / 60,
                                         (seconds % 60) / 2))
  {
  }

  // ---------------------------------------------------------------- the range 1980 to 2107

  const FIRST: nat := 315532800
  const LAST: nat := 4354819199

  lemma RangeDays()
    ensures DaysFromCivil(Date(1980, 1, 1)) == 3652 && DaysFromCivil(Date(2107, 12, 31)) == 50402
    ensures FIRST == 3652 * 86400 && LAST == 50403 * 86400 - 1
  {
  }

  lemma YearInRange(days: nat)
    ensures 3652 <= days <= 50402 <==> 1980 <= CivilFromDays(days).year <= 2107
  {
    RangeDays();
    DateRoundTrip(Date(1980, 1, 1));
    DateRoundTrip(Date(2107, 12, 31));
    DayRoundTrip(days);
    if days < 3652 { DatesAscend(days, 3652); }
    if days > 3652 { DatesAscend(3652, days); }
    if days < 50402 { DatesAscend(days, 50402); }
    if days > 50402 { DatesAscend(50402, days); }
  }

  lemma TimeSplits(seconds: int)
    requires 0 <= seconds < 86400
    ensures seconds / 3600 <= 23 && (seconds % 3600) / 60 <= 59 && (seconds % 60) / 2 <= 29
    ensures (seconds / 3600) * 3600 + ((seconds % 3600) / 60) * 60 + ((seconds % 60) / 2) * 2 == seconds - seconds % 2
  {
    var h, r := seconds / 3600, seconds % 3600;
    assert seconds % 60 == r % 60;
  }

  predicate RealFields(f: Fields) {
    && InFields(f) && ValidDate(Date(f.year + 1980, f.month, f.day))
    && f.hour <= 23 && f.minute <= 59 && f.twoSeconds <= 29
  }

  lemma PackedFields(f: Fields)
    requires RealFields(f)
    ensures Unpack(Pack(f)) == f && RealStamp(Pack(f))
    ensures StampDate(Pack(f)) == Date(f.year + 1980, f.month, f.day)
  {
    UnpackPack(f);
  }

  lemma FieldsOf(d: Date, seconds: int) returns (f: Fields)
    requires ValidDate(d) && 1980 <= d.year <= 2107 && 0 <= seconds < 86400
    ensures f == Fields(d.year - 1980, d.month, d.day, seconds / 3600, (seconds % 3600) / 60, (seconds % 60) / 2)
    ensures RealFields(f) && StampOf(d, seconds) == Pack(f)
  {
    f := DateFields(d, seconds);
    TimeSplits(seconds);
  }

  lemma StampFields(d: Date, seconds: int)
    requires ValidDate(d) && 1980 <= d.year <= 2107 && 0 <= seconds < 86400
    ensures Unpack(StampOf(d, seconds)) ==
      Fields(d.year - 1980, d.month, d.day, seconds / 3600, (seconds % 3600) / 60, (seconds % 60) / 2)
    ensures StampDate(StampOf(d, seconds)) == d && RealStamp(StampOf(d, seconds))
  {
    var f := FieldsOf(d, seconds);
    PackedFields(f);
  }

  lemma StampParses(dos: u32, d: Date, seconds: int)
    requires RealStamp(dos) && StampDate(dos) == d
    requires var f := Unpack(dos); f.hour * 3600 + f.minute * 60 + f.twoSeconds * 2 == seconds
    ensures DosTimeToUnix(dos) == Some(DaysFromCivil(d) * 86400 + seconds)
  {
  }

  lemma DateInRange(unix: nat) returns (d: Date)
    requires FIRST <= unix <= LAST
    ensures d == CivilFromDays(unix / 86400) && ValidDate(d) && 1980 <= d.year <= 2107
    ensures DaysFromCivil(d) == unix / 86400
  {
    d := CivilFromDays(unix / 86400);
    RangeDays();
    YearInRange(unix / 86400);
    DayRoundTrip(unix / 86400);
  }

  /** Any fields in the ranges the parser checks. */
  predicate ParsableFields(f: Fields) {
    InFields(f) && 1 <= f.month <= 12 && 1 <= f.day <= 31 && f.hour <= 23 && f.minute <= 59 && f.twoSeconds <= 29
  }

  lemma PackedParses(f: Fields)
    requires ParsableFields(f)
    ensures DosTimeToUnix(Pack(f)) == Some(
      DaysFromCivil(Date(f.year + 1980, f.month, f.day)) * 86400 + f.hour * 3600 + f.minute * 60 + f.twoSeconds * 2)
  {
    UnpackPack(f);
  }

  lemma PackedParsesAt(f: Fields, d: Date, days: int, seconds: int)
    requires ParsableFields(f) && d == Date(f.year + 1980, f.month, f.day) && DaysFromCivil(d) == days
    requires f.hour * 3600 + f.minute * 60 + f.twoSeconds * 2 == seconds
    ensures DosTimeToUnix(Pack(f)) == Some(days * 86400 + seconds)
  {
    PackedParses(f);
  }

  lemma RealIsParsable(f: Fields)
    requires RealFields(f)
    ensures ParsableFields(f)
  {
  }

  lemma TimeFields(d: Date, seconds: int) returns (f: Fields)
    requires ValidDate(d) && 1980 <= d.year <= 2107 && 0 <= seconds < 86400
    ensures RealFields(f) && StampOf(d, seconds) == Pack(f) && d == Date(f.year + 1980, f.month, f.day)
    ensures f.hour * 3600 + f.minute * 60 + f.twoSeconds * 2 == seconds - seconds % 2
  {
    f := FieldsOf(d, seconds);
    TimeSplits(seconds);
  }

  lemma StampRoundTripFor(d: Date, days: int, seconds: int) returns (dos: u32)
    requires ValidDate(d) && 1980 <= d.year <= 2107 && 0 <= seconds < 86400 && DaysFromCivil(d) == days
    ensures dos == StampOf(d, seconds)
    ensures DosTimeToUnix(dos) == Some(days * 86400 + (seconds - seconds % 2))
  {
    var f := TimeFields(d, seconds);
    RealIsParsable(f);
    PackedParsesAt(f, d, days, seconds - seconds % 2);
    dos := Pack(f);
  }

  lemma StampAt(unix: nat, days: nat, seconds: int, d: Date, dos: u32)
    requires days == unix / 86400 && seconds == unix % 86400
    requires CivilFromDays(days) == d && ValidDate(d) && dos == StampOf(d, seconds)
    ensures SystemTimeToDos(unix) == dos
  {
  }

  /** From 1980 to the end of 2107, packing and unpacking a time rounds it down to an even second. */
  lemma StampRoundTrip(unix: nat)
    requires FIRST <= unix <= LAST
    ensures DosTimeToUnix(SystemTimeToDos(unix)) == Some(unix - unix % 2)
  {
    var d := DateInRange(unix);
    var days, seconds := unix / 86400, unix % 86400;
    var dos := StampRoundTripFor(d, days, seconds);
    StampAt(unix, days, seconds, d, dos);
    EvenSecond(unix);
  }

  /** A scan only reports stamps that name a real date and time. */
  lemma ScannedStampIsReal(unix: nat)
    requires FIRST <= unix <= LAST
    ensures RealStamp(SystemTimeToDos(unix))
  {
    var d := DateInRange(unix);
    StampFields(d, unix % 86400);
  }

  lemma EvenSecond(unix: nat)
    ensures (unix / 86400) * 86400 + (unix % 86400 - (unix % 86400) % 2) == unix - unix % 2
  {
    assert unix == (unix / 86400) * 86400 + unix % 86400;
    assert 86400 == 2 * 43200;
    assert unix % 2 == ((unix / 86400) * 43200 * 2 + unix % 86400) % 2;
  }

  lemma TimeOfStamp(f: Fields)
    requires InFields(f) && f.hour <= 23 && f.minute <= 59 && f.twoSeconds <= 29
    ensures var seconds := f.hour * 3600 + f.minute * 60 + f.twoSeconds * 2;
      && 0 <= seconds < 86400
      && seconds / 3600 == f.hour && (seconds % 3600) / 60 == f.minute && (seconds % 60) / 2 == f.twoSeconds
  {
    var seconds := f.hour * 3600 + f.minute * 60 + f.twoSeconds * 2;
    var r := f.minute * 60 + f.twoSeconds * 2;
    assert seconds % 3600 == r;
    assert seconds == 60 * (f.hour * 60 + f.minute) + f.twoSeconds * 2;
    assert seconds % 60 == f.twoSeconds * 2;
  }

  lemma StampDayInRange(dos: u32)
    requires ValidDate(StampDate(dos))
    ensures 3652 <= DaysFromCivil(StampDate(dos)) <= 50402
    ensures CivilFromDays(DaysFromCivil(StampDate(dos))) == StampDate(dos)
  {
    DateRoundTrip(StampDate(dos));
    YearInRange(DaysFromCivil(StampDate(dos)));
  }

  lemma RepackFields(f: Fields, d: Date, seconds: int)
    requires RealFields(f) && d == Date(f.year + 1980, f.month, f.day)
    requires f.hour * 3600 + f.minute * 60 + f.twoSeconds * 2 == seconds
    ensures 0 <= seconds < 86400 && StampOf(d, seconds) == Pack(f)
  {
    TimeOfStamp(f);
    var g := FieldsOf(d, seconds);
  }

  lemma RepackStamp(dos: u32, seconds: int)
    requires RealStamp(dos)
    requires var f := Unpack(dos); f.hour * 3600 + f.minute * 60 + f.twoSeconds * 2 == seconds
    ensures 0 <= seconds < 86400 && StampOf(StampDate(dos), seconds) == dos
  {
    PackUnpack(dos);
    RepackFields(Unpack(dos), StampDate(dos), seconds);
  }

  lemma SplitUnix(days: nat, seconds: nat)
    requires seconds < 86400
    ensures (days * 86400 + seconds) / 86400 == days && (days * 86400 + seconds) % 86400 == seconds
  {
  }

  lemma PackTimeOf(days: nat, seconds: nat, d: Date)
    requires seconds < 86400 && ValidDate(d) && CivilFromDays(days) == d
    ensures SystemTimeToDos(days * 86400 + seconds) == StampOf(d, seconds)
  {
    SplitUnix(days, seconds);
  }

  lemma RepackedAt(dos: u32, d: Date, days: nat, seconds: int)
    requires RealStamp(dos) && StampDate(dos) == d && CivilFromDays(days) == d
    requires var f := Unpack(dos); f.hour * 3600 + f.minute * 60 + f.twoSeconds * 2 == seconds
    ensures 0 <= seconds < 86400
    ensures SystemTimeToDos(days * 86400 + seconds) == dos
  {
    RepackStamp(dos, seconds);
    PackTimeOf(days, seconds, d);
  }

  lemma ParsedAt(dos: u32) returns (d: Date, days: nat, seconds: int)
    requires RealStamp(dos)
    ensures d == StampDate(dos) && CivilFromDays(days) == d && 3652 <= days <= 50402
    ensures var f := Unpack(dos); f.hour * 3600 + f.minute * 60 + f.twoSeconds * 2 == seconds
    ensures 0 <= seconds < 86400 && DosTimeToUnix(dos) == Some(days * 86400 + seconds)
  {
    var f := Unpack(dos);
    d := StampDate(dos);
    seconds := f.hour * 3600 + f.minute * 60 + f.twoSeconds * 2;
    StampDayInRange(dos);
    days := DaysFromCivil(d);
    StampParses(dos, d, seconds);
  }

  /** Every stamp that names a real date and time survives unpacking and packing. */
  lemma RealStampSurvives(dos: u32) returns (unix: nat)
    requires RealStamp(dos)
    ensures DosTimeToUnix(dos) == Some(unix) && FIRST <= unix <= LAST
    ensures SystemTimeToDos(unix) == dos
  {
    var d, days, seconds := ParsedAt(dos);
    RepackedAt(dos, d, days, seconds);
    RangeDays();
    unix := days * 86400 + seconds;
  }

  // ---------------------------------------------------------------- order

  lemma PackMonotone(f: Fields, g: Fields)
    requires InFields(f) && InFields(g)
    requires
      var x := ((f.year * 16 + f.month) * 32 + f.day);
      var y := ((g.year * 16 + g.month) * 32 + g.day);
      x < y || (x == y && (f.hour * 64 + f.minute) * 32 + f.twoSeconds <= (g.hour * 64 + g.minute) * 32 + g.twoSeconds)
    ensures Pack(f) <= Pack(g)
  {
  }

  lemma TimeParts(s: int) returns (h: int, m: int, r: int)
    requires 0 <= s < 86400
    ensures h == s / 3600 && m == (s % 3600) / 60 && r == s % 60
    ensures s == h * 3600 + m * 60 + r && 0 <= m < 60 && 0 <= r < 60
  {
    h, m, r := s / 3600, (s % 3600) / 60, (s % 3600) % 60;
    assert s == 60 * (60 * h + m) + r;
  }

  lemma TimeMonotone(s: int, t: int)
    requires 0 <= s <= t < 86400
    ensures ((s / 3600) * 64 + (s % 3600) / 60) * 32 + (s % 60) / 2 <= ((t / 3600) * 64 + (t % 3600) / 60) * 32 + (t % 60) / 2
  {
    var h, m, r := TimeParts(s);
    var h', m', r' := TimeParts(t);
    assert h <= h' && (h == h' ==> m <= m') && (h == h' && m == m' ==> r <= r');
  }

  lemma DateKeyMonotone(a: Date, b: Date)
    requires ValidDate(a) && ValidDate(b) && Earlier(a, b)
    ensures (a.year * 16 + a.month) * 32 + a.day < (b.year * 16 + b.month) * 32 + b.day
  {
  }

  lemma StampsAscendFor(a: Date, s: int, b: Date, t: int)
    requires ValidDate(a) && 1980 <= a.year <= 2107 && 0 <= s < 86400
    requires ValidDate(b) && 1980 <= b.year <= 2107 && 0 <= t < 86400
    requires Earlier(a, b) || (a == b && s <= t)
    ensures StampOf(a, s) <= StampOf(b, t)
  {
    StampFields(a, s);
    StampFields(b, t);
    PackUnpack(StampOf(a, s));
    PackUnpack(StampOf(b, t));
    if Earlier(a, b) {
      DateKeyMonotone(a, b);
    } else {
      TimeMonotone(s, t);
    }
    PackMonotone(Unpack(StampOf(a, s)), Unpack(StampOf(b, t)));
  }

  lemma LaterTime(s: nat, t: nat)
    requires s <= t
    ensures s / 86400 < t / 86400 || (s / 86400 == t / 86400 && s % 86400 <= t % 86400)
  {
  }

  /** Packing keeps the order of times. */
  lemma StampsAscend(s: nat, t: nat)
    requires FIRST <= s <= t <= LAST
    ensures SystemTimeToDos(s) <= SystemTimeToDos(t)
  {
    var a := DateInRange(s);
    var b := DateInRange(t);
    LaterTime(s, t);
    if s / 86400 < t / 86400 {
      DatesAscend(s / 86400, t / 86400);
    }
    StampsAscendFor(a, s % 86400, b, t % 86400);
  }

  // ---------------------------------------------------------------- storing an uploaded stamp

  /**
   * The stamp a later scan reports for a file stored with stamp `dos` at time `written`: stamp 0, and stamps
   * that do not parse, leave the time of writing.
   */
  function StoredThenScanned(dos: u32, written: nat): u32 {
    var unix := if dos == 0 then None else DosTimeToUnix(dos);
    if unix.Some? && unix.value >= 0 then SystemTimeToDos(unix.value) else SystemTimeToDos(written)
  }

  /** A stamp that is not accepted leaves the file the time it was written at. */
  lemma UnacceptedLeavesTime(dos: u32, written: nat)
    ensures DosTimeToUnix(dos) == None ==> StoredThenScanned(dos, written) == SystemTimeToDos(written)
  {
  }

  lemma DayOfMonth(year: int, month: int, day: int)
    ensures DaysFromCivil(Date(year, month, day)) == DaysFromCivil(Date(year, month, 1)) + day - 1
  {
  }

  lemma MonthStarts(year: int, month: int) returns (days: int)
    requires 1980 <= year <= 2107 && 1 <= month <= 12
    ensures days == DaysFromCivil(Date(year, month, 1)) && 3652 <= days <= 50372
  {
    var d, last := Date(year, month, 1), Date(2107, 12, 1);
    days := DaysFromCivil(d);
    DateRoundTrip(d);
    DateRoundTrip(last);
    YearInRange(days);
    LastMonth();
    if days > 50372 {
      DatesAscend(50372, days);
    }
  }

  lemma LastMonth()
    ensures DaysFromCivil(Date(2107, 12, 1)) == 50372
  {
  }

  /** Even a day its month does not have lies inside the range. */
  lemma ParsedInRange(dos: u32)
    requires DosTimeToUnix(dos).Some?
    ensures FIRST <= DosTimeToUnix(dos).value <= LAST
  {
    var f := Unpack(dos);
    var days := MonthStarts(f.year + 1980, f.month);
    DayOfMonth(f.year + 1980, f.month, f.day);
    RangeDays();
  }

  lemma UnrealChanges(dos: u32)
    requires !RealStamp(dos)
    ensures StoredThenScanned(dos, FIRST) != dos
  {
    ScannedStampIsReal(FIRST);
    if dos != 0 && DosTimeToUnix(dos).Some? {
      ParsedInRange(dos);
      ScannedStampIsReal(DosTimeToUnix(dos).value);
    }
  }

  lemma RealIsNotZero(dos: u32)
    requires RealStamp(dos)
    ensures dos != 0
  {
    assert Unpack(0).month == 0;
  }

  lemma ParsedIsStored(dos: u32, written: nat, unix: nat)
    requires dos != 0 && DosTimeToUnix(dos) == Some(unix)
    ensures StoredThenScanned(dos, written) == SystemTimeToDos(unix)
  {
  }

  lemma RealReturns(dos: u32, written: nat)
    requires RealStamp(dos)
    ensures StoredThenScanned(dos, written) == dos
  {
    var unix := RealStampSurvives(dos);
    RealIsNotZero(dos);
    ParsedIsStored(dos, written, unix);
  }

  /** A stored stamp comes back from the next scan, whenever it is stored, exactly if it names a real date and time. */
  lemma StoredStampReturns(dos: u32)
    ensures (forall written: nat :: StoredThenScanned(dos, written) == dos) <==> RealStamp(dos)
  {
    if RealStamp(dos) {
      forall written: nat ensures StoredThenScanned(dos, written) == dos { RealReturns(dos, written); }
    } else {
      UnrealChanges(dos);
    }
  }

  lemma SameInstant(year: int)
    requires year == 2024
    ensures DaysFromCivil(Date(year, 2, 30)) == DaysFromCivil(Date(year, 3, 1))
  {
  }

  lemma SameMidnight(february: Fields, march: Fields)
    requires february == Fields(44, 2, 30, 0, 0, 0) && march == Fields(44, 3, 1, 0, 0, 0)
    ensures DosTimeToUnix(Pack(february)) == DosTimeToUnix(Pack(march)) && DosTimeToUnix(Pack(march)).Some?
  {
    PackedParses(february);
    PackedParses(march);
    SameInstant(2024);
  }

  lemma FebruaryIsUnreal(february: Fields, march: Fields)
    requires february == Fields(44, 2, 30, 0, 0, 0) && march == Fields(44, 3, 1, 0, 0, 0)
    ensures !RealStamp(Pack(february)) && RealStamp(Pack(march))
  {
    UnpackPack(february);
    UnpackPack(march);
  }

  lemma SameStored(dos: u32, other: u32)
    requires RealStamp(other) && dos != 0 && DosTimeToUnix(dos) == DosTimeToUnix(other)
    ensures StoredThenScanned(dos, 0) == other
  {
    var unix := RealStampSurvives(other);
    ParsedIsStored(dos, 0, unix);
  }

  /** 30 February 2024 parses, and comes back as 1 March. */
  lemma ThirtiethOfFebruary(february: u32, march: u32)
    requires february == Pack(Fields(44, 2, 30, 0, 0, 0)) && march == Pack(Fields(44, 3, 1, 0, 0, 0))
    ensures !RealStamp(february) && DosTimeToUnix(february).Some?
    ensures StoredThenScanned(february, 0) == march
  {
    SameMidnight(Fields(44, 2, 30, 0, 0, 0), Fields(44, 3, 1, 0, 0, 0));
    FebruaryIsUnreal(Fields(44, 2, 30, 0, 0, 0), Fields(44, 3, 1, 0, 0, 0));
    SameStored(february, march);
  }
}
