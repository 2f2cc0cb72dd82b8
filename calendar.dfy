/**
 * Calendar days as the client manipulates them through JavaScript's `Date`:
 * the proleptic Gregorian calendar, the normalisation that `new Date(y, m, d)`
 * performs on out-of-range months and days, the two string forms the client
 * prints (`formatDate` in the summaries view and the date part of
 * `toISOString`) and the strict `YYYY-MM-DD` form it parses.
 * Time of day, time zones and daylight-saving shifts are not modelled.
 */
module Calendar {
  import opened Wrappers
  import opened Strings

  datatype Date = Date(year: int, month: int, day: int)

  predicate IsLeapYear(y: int)
  {
    y % 4 == 0 && (y % 100 != 0 || y % 400 == 0)
  }

  function DaysInMonth(y: int, m: int): (n: int)
    requires 1 <= m <= 12
    ensures 28 <= n <= 31
  {
    if m == 2 then (if IsLeapYear(y) then 29 else 28)
    else if m == 4 || m == 6 || m == 9 || m == 11 then 30
    else 31
  }

  /** A real calendar day: month 1..12 and a day that exists in that month. */
  predicate Valid(d: Date)
  {
    1 <= d.month <= 12 && 1 <= d.day <= DaysInMonth(d.year, d.month)
  }

  /** Chronological order on days (lexicographic on year, month, day). */
  predicate Before(a: Date, b: Date)
  {
    a.year < b.year
    || (a.year == b.year && a.month < b.month)
    || (a.year == b.year && a.month == b.month && a.day < b.day)
  }

  predicate NotAfter(a: Date, b: Date)
  {
    !Before(b, a)
  }

  function NextDay(d: Date): (r: Date)
    requires Valid(d)
    ensures Valid(r) && Before(d, r)
  {
    if d.day < DaysInMonth(d.year, d.month) then Date(d.year, d.month, d.day + 1)
    else if d.month < 12 then Date(d.year, d.month + 1, 1)
    else Date(d.year + 1, 1, 1)
  }

  function PrevDay(d: Date): (r: Date)
    requires Valid(d)
    ensures Valid(r) && Before(r, d)
  {
    if d.day > 1 then Date(d.year, d.month, d.day - 1)
    else if d.month > 1 then Date(d.year, d.month - 1, DaysInMonth(d.year, d.month - 1))
    else Date(d.year - 1, 12, 31)
  }

  /** Stepping one day forward and one day back are inverse. */
  lemma NextPrevInverse(d: Date)
    requires Valid(d)
    ensures NextDay(PrevDay(d)) == d
    ensures PrevDay(NextDay(d)) == d
  {
  }

  /** No valid day lies strictly between a day and the next one. */
  lemma NothingBetween(d: Date, e: Date)
    requires Valid(d) && Valid(e)
    requires Before(d, e)
    ensures NotAfter(NextDay(d), e)
  {
  }

  /** The days of the years before `y`, counted from year 1 (negative for earlier years). */
  function DaysBeforeYear(y: int): int
  {
    var p := y - 1;
    365 * p + p / 4 - p / 100 + p / 400
  }

  /** The days of the months of year `y` before month `m`. */
  function DaysBeforeMonth(y: int, m: int): int
    requires 1 <= m <= 12
  {
    [0, 31, 59, 90, 120, 151, 181, 212, 243, 273, 304, 334][m - 1] + (if m > 2 && IsLeapYear(y) then 1 else 0)
  }

  /** A day's position on the line of days: the number of days from 1 January of year 1, that day being 1. */
  function DayNumber(d: Date): int
    requires 1 <= d.month <= 12
  {
    DaysBeforeYear(d.year) + DaysBeforeMonth(d.year, d.month) + d.day
  }

  /** A year has 366 days when it is a leap year and 365 otherwise. */
  lemma YearLength(y: int)
    ensures DaysBeforeYear(y + 1) == DaysBeforeYear(y) + (if IsLeapYear(y) then 366 else 365)
  {
    var p := y - 1;
    assert y / 4 == p / 4 + (if y % 4 == 0 then 1 else 0);
    assert y / 100 == p / 100 + (if y % 100 == 0 then 1 else 0);
    assert y / 400 == p / 400 + (if y % 400 == 0 then 1 else 0);
    if y % 100 == 0 {
      var c := y / 100;
      assert y == 100 * c;
      assert y % 4 == 0;
    }
    if y % 400 == 0 {
      var c := y / 400;
      assert y == 400 * c;
      assert y % 100 == 0;
    }
  }

  /** The next day is one further along the line of days. */
  lemma DayNumberNext(d: Date)
    requires Valid(d)
    ensures DayNumber(NextDay(d)) == DayNumber(d) + 1
  {
    if d.month == 12 && d.day == 31 {
      YearLength(d.year);
    }
  }

  /** The previous day is one back along the line of days. */
  lemma DayNumberPrev(d: Date)
    requires Valid(d)
    ensures DayNumber(PrevDay(d)) == DayNumber(d) - 1
  {
    NextPrevInverse(d);
    DayNumberNext(PrevDay(d));
  }

  lemma {:induction false} DaysBeforeYearMonotone(x: int, z: int)
    requires x <= z
    ensures DaysBeforeYear(x) <= DaysBeforeYear(z)
    decreases z - x
  {
    if x < z {
      YearLength(x);
      DaysBeforeYearMonotone(x + 1, z);
    }
  }

  /** A day that comes earlier has a smaller number. */
  lemma DayNumberBefore(a: Date, b: Date)
    requires Valid(a) && Valid(b) && Before(a, b)
    ensures DayNumber(a) < DayNumber(b)
  {
    if a.year < b.year {
      DayWithinYear(a);
      YearLength(a.year);
      DaysBeforeYearMonotone(a.year + 1, b.year);
    } else if a.month < b.month {
      MonthsInOrder(a.year, a.month, b.month);
    }
  }

  lemma DayWithinYear(d: Date)
    requires Valid(d)
    ensures DaysBeforeMonth(d.year, d.month) + d.day <= (if IsLeapYear(d.year) then 366 else 365)
  {
  }

  lemma MonthsInOrder(y: int, m: int, n: int)
    requires 1 <= m < n <= 12
    ensures DaysBeforeMonth(y, m) + DaysInMonth(y, m) <= DaysBeforeMonth(y, n)
  {
  }

  /** Different real days have different numbers, so a number names at most one real day. */
  lemma DayNumberInjective(a: Date, b: Date)
    requires Valid(a) && Valid(b) && DayNumber(a) == DayNumber(b)
    ensures a == b
  {
    if Before(a, b) {
      DayNumberBefore(a, b);
    } else if Before(b, a) {
      DayNumberBefore(b, a);
    }
  }

  /**
   * The day that `new Date(y, m, d)` denotes once it has normalised `d`
   * against the month `m`: days past the month's end run into the following
   * months, days below 1 into the previous ones.
   */
  function NormalizeDay(y: int, m: int, d: int): (r: Date)
    requires 1 <= m <= 12
    ensures Valid(r)
    ensures Valid(Date(y, m, d)) ==> r == Date(y, m, d)
    decreases if d < 1 then 100 - d else d
  {
    if d < 1 then
      var prev := PrevDay(Date(y, m, 1));
      NormalizeDay(prev.year, prev.month, d + prev.day)
    else if d > DaysInMonth(y, m) then
      var next := NextDay(Date(y, m, DaysInMonth(y, m)));
      NormalizeDay(next.year, next.month, d - DaysInMonth(y, m))
    else Date(y, m, d)
  }

  /**
   * Day `d` of month `m` is the real day `d - 1` days after the first of
   * that month, whatever `d` is: the only real day with that number.
   */
  lemma {:induction false} NormalizeDayCount(y: int, m: int, d: int)
    requires 1 <= m <= 12
    ensures DayNumber(NormalizeDay(y, m, d)) == DayNumber(Date(y, m, 1)) + d - 1
    ensures forall e :: Valid(e) && DayNumber(e) == DayNumber(Date(y, m, 1)) + d - 1 ==> e == NormalizeDay(y, m, d)
    decreases if d < 1 then 100 - d else d
  {
    if d < 1 {
      var prev := PrevDay(Date(y, m, 1));
      DayNumberPrev(Date(y, m, 1));
      NormalizeDayCount(prev.year, prev.month, d + prev.day);
    } else if d > DaysInMonth(y, m) {
      var next := NextDay(Date(y, m, DaysInMonth(y, m)));
      DayNumberNext(Date(y, m, DaysInMonth(y, m)));
      NormalizeDayCount(next.year, next.month, d - DaysInMonth(y, m));
    }
    forall e | Valid(e) && DayNumber(e) == DayNumber(Date(y, m, 1)) + d - 1
      ensures e == NormalizeDay(y, m, d)
    {
      DayNumberInjective(e, NormalizeDay(y, m, d));
    }
  }

  /**
   * The first day of the month that `new Date(year, monthIndex, 1)` lands
   * in: a year from 0 to 99 means 1900 to 1999, and the month index counts
   * from 0 and overflows into the year in either direction.
   */
  function MonthStart(year: int, monthIndex: int): (first: Date)
    ensures Valid(first) && first.day == 1
  {
    var fullYear := if 0 <= year <= 99 then 1900 + year else year;
    Date(fullYear + monthIndex / 12, monthIndex % 12 + 1, 1)
  }

  /**
   * The calendar day of `new Date(year, monthIndex, day)`: the day is
   * normalised against the month that `year` and `monthIndex` name.
   */
  function MakeDate(year: int, monthIndex: int, day: int): (r: Date)
    ensures Valid(r)
  {
    var first := MonthStart(year, monthIndex);
    NormalizeDay(first.year, first.month, day)
  }

  /**
   * `new Date(year, monthIndex, day)` is the real day `day - 1` days after
   * the first of its month, and no other.
   */
  lemma MakeDateCount(year: int, monthIndex: int, day: int)
    ensures DayNumber(MakeDate(year, monthIndex, day)) == DayNumber(MonthStart(year, monthIndex)) + day - 1
    ensures forall e :: Valid(e) && DayNumber(e) == DayNumber(MonthStart(year, monthIndex)) + day - 1 ==>
      e == MakeDate(year, monthIndex, day)
  {
    var first := MonthStart(year, monthIndex);
    NormalizeDayCount(first.year, first.month, day);
  }

  /** `new Date(2024, 1, 31)`: the 31st of a 29-day February is 2 March. */
  lemma MakeDateOverflowExample(year: int, monthIndex: int, day: int)
    requires year == 2024 && monthIndex == 1 && day == 31
    ensures MakeDate(year, monthIndex, day) == Date(2024, 3, 2)
  {
    var target := Date(2024, 3, 2);
    assert monthIndex / 12 == 0 && monthIndex % 12 + 1 == 2;
    assert DaysBeforeMonth(year, 3) == DaysBeforeMonth(year, 2) + 29;
    assert Valid(target) && DayNumber(target) == DayNumber(Date(year, 2, 1)) + day - 1;
    MakeDateCount(year, monthIndex, day);
  }

  /** For a real day whose year is at least 100, `new Date` denotes that very day. */
  lemma MakeDateOfValid(d: Date)
    requires Valid(d) && d.year >= 100
    ensures MakeDate(d.year, d.month - 1, d.day) == d
  {
  }

  /** `new Date(y, m - 1, d - 2)` is the calendar day two days before `y-m-d`. */
  lemma MakeDateTwoDaysBefore(d: Date)
    requires Valid(d) && d.year >= 100
    ensures MakeDate(d.year, d.month - 1, d.day - 2) == PrevDay(PrevDay(d))
  {
    assert (d.month - 1) / 12 == 0 && (d.month - 1) % 12 + 1 == d.month;
    assert MonthStart(d.year, d.month - 1) == Date(d.year, d.month, 1);
    DayNumberPrev(d);
    DayNumberPrev(PrevDay(d));
    MakeDateCount(d.year, d.month - 1, d.day - 2);
  }

  /** The first and last day of the window of the day written `y-m-d`, as `new Date` builds them. */
  function WindowDays(y: nat, m: nat, d: nat): (Date, Date)
  {
    (MakeDate(y, m - 1, d - 2), MakeDate(y, m - 1, d))
  }

  /** For a real day from year 100 on, the window runs from two days before it to the day itself. */
  lemma WindowOfValid(d: Date)
    requires Valid(d) && d.year >= 100
    ensures WindowDays(d.year, d.month, d.day) == (PrevDay(PrevDay(d)), d)
  {
    WindowStart(d);
    WindowEnd(d);
  }

  lemma WindowStart(d: Date)
    requires Valid(d) && d.year >= 100
    ensures WindowDays(d.year, d.month, d.day).0 == PrevDay(PrevDay(d))
  {
    MakeDateTwoDaysBefore(d);
  }

  lemma WindowEnd(d: Date)
    requires Valid(d) && d.year >= 100
    ensures WindowDays(d.year, d.month, d.day).1 == d
  {
    MakeDateOfValid(d);
  }

  /** `formatDate` of the summaries view: `${year}-${MM}-${DD}`, month and day zero-padded. */
  function LocalFormat(d: Date): string
    requires Valid(d)
  {
    IntToDecimal(d.year) + "-" + PadStart(d.month, 2) + "-" + PadStart(d.day, 2)
  }

  /**
   * `date.split('-').map(Number)` when it yields exactly three numbers: the
   * year, month and day as written, not yet checked against the calendar.
   */
  function ParseDayParts(s: string): Option<(nat, nat, nat)>
  {
    var parts := Split(s, '-');
    if |parts| == 3 && ParseNat(parts[0]).Some? && ParseNat(parts[1]).Some? && ParseNat(parts[2]).Some?
    then Some((ParseNat(parts[0]).value, ParseNat(parts[1]).value, ParseNat(parts[2]).value))
    else None
  }

  /**
   * The day strings that yield a window are exactly three non-empty digit
   * strings joined by `-`, and the numbers are the values those digits denote.
   */
  lemma ParseDayPartsAccepts(s: string)
    ensures ParseDayParts(s).Some? ==>
      exists a, b, c :: s == a + "-" + b + "-" + c && DigitField(a) && DigitField(b) && DigitField(c)
        && ParseDayParts(s).value == (DigitsValue(a), DigitsValue(b), DigitsValue(c))
  {
    if ParseDayParts(s).Some? {
      var parts := Split(s, '-');
      Join3(parts[0], parts[1], parts[2], '-');
      assert parts == [parts[0], parts[1], parts[2]];
      assert s == parts[0] + "-" + parts[1] + "-" + parts[2];
    }
  }

  /** Conversely, any three non-empty digit strings joined by `-` parse to the numbers they denote. */
  lemma ParseDayPartsOfDigits(a: string, b: string, c: string)
    requires DigitField(a) && DigitField(b) && DigitField(c)
    ensures ParseDayParts(a + "-" + b + "-" + c) == Some((DigitsValue(a), DigitsValue(b), DigitsValue(c)))
  {
    var parts := [a, b, c];
    forall i | 0 <= i < 3 ensures '-' !in parts[i] {
      assert AllDigits(parts[i]);
    }
    Join3(a, b, c, '-');
    SplitJoin(parts, '-');
  }

  /** A field that `Number` reads as a plain count here: at least one digit and nothing else. */
  predicate DigitField(s: string)
  {
    s != "" && AllDigits(s)
  }

  /** Round trip: a formatted day with a non-negative year parses back to its year, month and day. */
  lemma ParseLocalFormat(d: Date)
    requires Valid(d) && d.year >= 0
    ensures ParseDayParts(LocalFormat(d)) == Some((d.year as nat, d.month as nat, d.day as nat))
  {
    var parts := [IntToDecimal(d.year), PadStart(d.month, 2), PadStart(d.day, 2)];
    forall i | 0 <= i < 3 ensures '-' !in parts[i] {
      assert AllDigits(parts[i]);
    }
    Join3(parts[0], parts[1], parts[2], '-');
    SplitJoin(parts, '-');
  }

  /** The date part of `toISOString()` for a year from 0 to 9999: `YYYY-MM-DD`. */
  function IsoDay(d: Date): string
    requires Valid(d) && 0 <= d.year <= 9999
  {
    PadStart(d.year, 4) + "-" + PadStart(d.month, 2) + "-" + PadStart(d.day, 2)
  }

  /**
   * `new Date(s)` for a date-only ISO string: four-digit year, two-digit
   * month and day, and a day that exists; anything else is an invalid date.
   */
  function ParseIsoDay(s: string): (r: Option<Date>)
    ensures r.Some? ==> Valid(r.value) && 0 <= r.value.year <= 9999
  {
    var parts := Split(s, '-');
    if |parts| == 3 && |parts[0]| == 4 && |parts[1]| == 2 && |parts[2]| == 2
       && AllDigits(parts[0]) && AllDigits(parts[1]) && AllDigits(parts[2])
    then
      var d := Date(DigitsValue(parts[0]), DigitsValue(parts[1]), DigitsValue(parts[2]));
      FourDigitsBound(parts[0]);
      if Valid(d) then Some(d) else None
    else None
  }

  lemma FourDigitsBound(s: string)
    requires |s| == 4 && AllDigits(s)
    ensures DigitsValue(s) <= 9999
  {
    DigitsValueBound(s);
  }

  /** Round trip: the ISO day string of a day parses back to that day. */
  lemma ParseIsoDayRoundTrip(d: Date)
    requires Valid(d) && 0 <= d.year <= 9999
    ensures ParseIsoDay(IsoDay(d)) == Some(d)
  {
    var parts := [PadStart(d.year, 4), PadStart(d.month, 2), PadStart(d.day, 2)];
    forall i | 0 <= i < 3 ensures '-' !in parts[i] {
      assert AllDigits(parts[i]);
    }
    Join3(parts[0], parts[1], parts[2], '-');
    SplitJoin(parts, '-');
    PadStartLength(d.year, 4);
    PadStartLength(d.month, 2);
    PadStartLength(d.day, 2);
  }

  /** The days from `start` to `end` inclusive, one after the other; empty when `start` is after `end`. */
  function DaysFrom(start: Date, end: Date): (days: seq<Date>)
    requires Valid(start) && Valid(end)
    ensures days == [] <==> Before(end, start)
    ensures days != [] ==> days[0] == start && days[|days| - 1] == end
    ensures forall i :: 0 <= i < |days| ==> Valid(days[i]) && NotAfter(start, days[i]) && NotAfter(days[i], end)
    decreases end.year - start.year, 12 - start.month, 31 - start.day
  {
    if Before(end, start) then []
    else
      var rest := DaysFrom(NextDay(start), end);
      if rest == [] then
        NothingBetweenOrEqual(start, end);
        [start]
      else
        [start] + rest
  }

  /** A run that does not start after its end starts with its first day. */
  lemma DaysFromStep(d: Date, end: Date)
    requires Valid(d) && Valid(end) && NotAfter(d, end)
    ensures DaysFrom(d, end) == [d] + DaysFrom(NextDay(d), end)
  {
  }

  /** Each day of a run is the next day of the one before it. */
  lemma {:induction false} DaysFromConsecutive(start: Date, end: Date, i: nat)
    requires Valid(start) && Valid(end) && i + 1 < |DaysFrom(start, end)|
    ensures DaysFrom(start, end)[i + 1] == NextDay(DaysFrom(start, end)[i])
    decreases end.year - start.year, 12 - start.month, 31 - start.day
  {
    var rest := DaysFrom(NextDay(start), end);
    assert DaysFrom(start, end) == [start] + rest;
    if i > 0 {
      DaysFromConsecutive(NextDay(start), end, i - 1);
    }
  }

  lemma NothingBetweenOrEqual(d: Date, e: Date)
    requires Valid(d) && Valid(e)
    requires NotAfter(d, e) && Before(e, NextDay(d))
    ensures d == e
  {
  }
}
