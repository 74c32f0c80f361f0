/** Spreadsheet day serials and the proleptic Gregorian calendar: the day
    count from 1970-01-01, the date a day count falls on, and the date text
    `Date.prototype.toISOString` prints, which is the calendar date in the
    extended format of section 4.1.2.2 of ISO 8601:2004 (YYYY-MM-DD), with a
    signed six-digit year outside 0000..9999 (section 4.1.2.4, expanded
    representations). */
module ExcelDates {
  import opened Text

  predicate IsLeap(y: int) {
    y % 4 == 0 && (y % 100 != 0 || y % 400 == 0)
  }

  function DaysInYear(y: int): int {
    if IsLeap(y) then 366 else 365
  }

  function DaysInMonth(y: int, m: int): int
    requires 1 <= m <= 12
  {
    if m == 2 then (if IsLeap(y) then 29 else 28)
    else if m == 4 || m == 6 || m == 9 || m == 11 then 30
    else 31
  }

  datatype Date = Date(year: int, month: int, day: int)

  predicate ValidDate(d: Date) {
    1 <= d.month <= 12 && 1 <= d.day <= DaysInMonth(d.year, d.month)
  }

  // ---------------------------------------------------------------------
  // Day numbers

  /** The leap years in [0, y), counted negatively when y < 0. */
  function LeapsBefore(y: int): int {
    (y + 3) / 4 - (y + 99) / 100 + (y + 399) / 400
  }

  lemma {:induction false} CeilDivStep(y: int, k: int)
    requires k == 4 || k == 100 || k == 400
    ensures (y + k) / k == (y + k - 1) / k + (if y % k == 0 then 1 else 0)
  {
    var q := y / k;
    var r := y % k;
    assert y == q * k + r && 0 <= r < k;
    assert y + k == (q + 1) * k + r;
    assert (y + k) / k == q + 1;
    if r == 0 {
      assert y + k - 1 == q * k + (k - 1);
      assert (y + k - 1) / k == q;
    } else {
      assert y + k - 1 == (q + 1) * k + (r - 1);
      assert (y + k - 1) / k == q + 1;
    }
  }

  lemma Multiple400(y: int)
    requires y % 400 == 0
    ensures y % 100 == 0
  {
    var q := y / 400;
    assert y == (4 * q) * 100 + 0;
  }

  lemma Multiple100(y: int)
    requires y % 100 == 0
    ensures y % 4 == 0
  {
    var q := y / 100;
    assert y == (25 * q) * 4 + 0;
  }

  lemma {:induction false} LeapsStep(y: int)
    ensures LeapsBefore(y + 1) == LeapsBefore(y) + (if IsLeap(y) then 1 else 0)
  {
    CeilDivStep(y, 4);
    CeilDivStep(y, 100);
    CeilDivStep(y, 400);
    if y % 400 == 0 {
      Multiple400(y);
    }
    if y % 100 == 0 {
      Multiple100(y);
    }
    var i4 := if y % 4 == 0 then 1 else 0;
    var i100 := if y % 100 == 0 then 1 else 0;
    var i400 := if y % 400 == 0 then 1 else 0;
    assert LeapsBefore(y + 1) == LeapsBefore(y) + i4 - i100 + i400;
    assert i4 - i100 + i400 == (if IsLeap(y) then 1 else 0);
  }

  /** Days from 1970-01-01 to January 1st of year y. */
  function DaysBeforeYear(y: int): int {
    365 * (y - 1970) + LeapsBefore(y) - LeapsBefore(1970)
  }

  lemma {:induction false} DaysBeforeYearStep(y: int)
    ensures DaysBeforeYear(y + 1) == DaysBeforeYear(y) + DaysInYear(y)
  {
    LeapsStep(y);
  }

  /** Days from January 1st to the first of month m. */
  function DaysBeforeMonth(y: int, m: int): int
    requires 1 <= m <= 12
  {
    [0, 31, 59, 90, 120, 151, 181, 212, 243, 273, 304, 334][m - 1] + (if m > 2 && IsLeap(y) then 1 else 0)
  }

  /** Days from 1970-01-01 to d (negative before it). */
  function DayNumber(d: Date): int
    requires 1 <= d.month <= 12
  {
    DaysBeforeYear(d.year) + DaysBeforeMonth(d.year, d.month) + d.day - 1
  }

  /** The year holding the day n days after January 1st of year y, and the
      offset of that day in it, counting forwards. */
  function YearFrom(n: nat, y: int): (r: (int, int))
    ensures 0 <= r.1 < DaysInYear(r.0)
    ensures DaysBeforeYear(r.0) + r.1 == DaysBeforeYear(y) + n
    ensures r.0 >= y
  {
    var here := DaysInYear(y);
    if n < here then (y, n)
    else
      DaysBeforeYearStep(y);
      YearFrom(n - here, y + 1)
  }

  /** The same, counting backwards from January 1st of year y for a day
      before it (n < 0). */
  function YearUntil(n: int, y: int): (r: (int, int))
    requires n < 0
    ensures 0 <= r.1 < DaysInYear(r.0)
    ensures DaysBeforeYear(r.0) + r.1 == DaysBeforeYear(y) + n
    ensures r.0 < y
    decreases -n
  {
    var before := DaysInYear(y - 1);
    DaysBeforeYearStep(y - 1);
    if n + before >= 0 then (y - 1, n + before)
    else YearUntil(n + before, y - 1)
  }

  /** The year holding the day n days after January 1st of year y (before
      it when n < 0), and the offset of that day in it. */
  function YearOf(n: int, y: int): (r: (int, int))
    ensures 0 <= r.1 < DaysInYear(r.0)
    ensures DaysBeforeYear(r.0) + r.1 == DaysBeforeYear(y) + n
    ensures n >= 0 ==> r.0 >= y
    ensures n < 0 ==> r.0 < y
  {
    if n >= 0 then YearFrom(n, y) else YearUntil(n, y)
  }

  /** The date of offset n in year y, searching from month m on. */
  function MonthOf(y: int, m: int, n: int): (d: Date)
    requires 1 <= m <= 12 && 0 <= n && DaysBeforeMonth(y, m) + n < DaysInYear(y)
    ensures ValidDate(d) && d.year == y
    ensures DaysBeforeMonth(y, d.month) + d.day - 1 == DaysBeforeMonth(y, m) + n
    decreases 12 - m
  {
    if n < DaysInMonth(y, m) then Date(y, m, n + 1)
    else MonthOf(y, m + 1, n - DaysInMonth(y, m))
  }

  /** The date n days after 1970-01-01. */
  function CivilFromDays(n: int): (d: Date)
    ensures ValidDate(d) && DayNumber(d) == n
  {
    var (y, k) := YearOf(n, 1970);
    MonthOf(y, 1, k)
  }

  lemma {:induction false} DaysBeforeYearMonotonic(a: int, b: int)
    requires a < b
    ensures DaysBeforeYear(a) + DaysInYear(a) <= DaysBeforeYear(b)
    decreases b - a
  {
    DaysBeforeYearStep(a);
    if a + 1 < b {
      DaysBeforeYearMonotonic(a + 1, b);
    }
  }

  lemma {:induction false} DaysBeforeMonthMonotonic(y: int, a: int, b: int)
    requires 1 <= a < b <= 12
    ensures DaysBeforeMonth(y, a) + DaysInMonth(y, a) <= DaysBeforeMonth(y, b)
  {
  }

  /** Two valid dates with the same day number are the same date, so
      CivilFromDays names the one date a day number stands for. */
  lemma {:induction false} DayNumberInjective(a: Date, b: Date)
    requires ValidDate(a) && ValidDate(b) && DayNumber(a) == DayNumber(b)
    ensures a == b
  {
    assert DaysBeforeMonth(a.year, a.month) + a.day - 1 < DaysInYear(a.year);
    assert DaysBeforeMonth(b.year, b.month) + b.day - 1 < DaysInYear(b.year);
    if a.year < b.year {
      DaysBeforeYearMonotonic(a.year, b.year);
    } else if b.year < a.year {
      DaysBeforeYearMonotonic(b.year, a.year);
    }
    assert a.year == b.year;
    if a.month < b.month {
      DaysBeforeMonthMonotonic(a.year, a.month, b.month);
    } else if b.month < a.month {
      DaysBeforeMonthMonotonic(a.year, b.month, a.month);
    }
  }

  /** Reading a valid date back through its day number gives the date. */
  lemma {:induction false} CivilFromDayNumber(d: Date)
    requires ValidDate(d)
    ensures CivilFromDays(DayNumber(d)) == d
  {
    DayNumberInjective(CivilFromDays(DayNumber(d)), d);
  }

  /** Far years: a year at or beyond 1970 + k starts at least 365 k days
      after 1970-01-01, and symmetrically before. */
  lemma {:induction false} DaysBeforeYearBounds(y: int)
    ensures y >= 1970 ==> DaysBeforeYear(y) >= 365 * (y - 1970)
    ensures y <= 1970 ==> DaysBeforeYear(y) <= 365 * (y - 1970)
    decreases if y >= 1970 then y - 1970 else 1970 - y
  {
    if y > 1970 {
      DaysBeforeYearBounds(y - 1);
      DaysBeforeYearStep(y - 1);
    } else if y < 1970 {
      DaysBeforeYearBounds(y + 1);
      DaysBeforeYearStep(y);
    }
  }

  // ---------------------------------------------------------------------
  // Text

  /** The year as `toISOString` prints it. */
  function YearText(y: int): (s: string)
    ensures 0 <= y <= 9999 ==> |s| == 4 && AllDigits(s)
    ensures !(0 <= y <= 9999) ==> |s| == 7 && (s[0] == '+' || s[0] == '-') && AllDigits(s[1..])
  {
    if 0 <= y <= 9999 then Padded(y, 4)
    else if y < 0 then "-" + Padded(-y, 6)
    else "+" + Padded(y, 6)
  }

  /** The calendar date in the extended format. */
  function IsoText(d: Date): string
    requires d.month >= 0 && d.day >= 0
  {
    YearText(d.year) + "-" + Padded(d.month, 2) + "-" + Padded(d.day, 2)
  }

  /** A four-digit-year date prints as YYYY-MM-DD, and its three fields read
      back as the date's year, month and day. */
  lemma {:induction false} IsoTextFields(d: Date)
    requires ValidDate(d) && 0 <= d.year <= 9999
    ensures var s := IsoText(d);
            |s| == 10 && s[4] == '-' && s[7] == '-'
            && AllDigits(s[..4]) && AllDigits(s[5..7]) && AllDigits(s[8..])
            && DigitsValue(s[..4]) == d.year && DigitsValue(s[5..7]) == d.month && DigitsValue(s[8..]) == d.day
  {
    var s := IsoText(d);
    assert s[..4] == Padded(d.year, 4);
    assert s[5..7] == Padded(d.month, 2);
    assert s[8..] == Padded(d.day, 2);
    PaddedValue(d.year, 4);
    PaddedValue(d.month, 2);
    PaddedValue(d.day, 2);
  }

  /** An expanded-year date prints as ±YYYYYY-MM-DD, with the magnitude of
      the year in the six digits, as long as it has at most six digits. */
  lemma {:induction false} ExpandedIsoTextFields(d: Date)
    requires ValidDate(d) && !(0 <= d.year <= 9999) && -999999 <= d.year <= 999999
    ensures var s := IsoText(d);
            |s| == 13 && s[7] == '-' && s[10] == '-' && (s[0] == '-' <==> d.year < 0)
            && AllDigits(s[1..7]) && DigitsValue(s[1..7]) == (if d.year < 0 then -d.year else d.year)
            && DigitsValue(s[8..10]) == d.month && DigitsValue(s[11..]) == d.day
  {
    var s := IsoText(d);
    var mag := if d.year < 0 then -d.year else d.year;
    assert s[1..7] == Padded(mag, 6);
    assert s[8..10] == Padded(d.month, 2);
    assert s[11..] == Padded(d.day, 2);
    PaddedValue(mag, 6);
    PaddedValue(d.month, 2);
    PaddedValue(d.day, 2);
  }

  // ---------------------------------------------------------------------
  // Serials

  /** Serial 25569 is 1970-01-01. */
  const EpochSerial: real := 25569.0

  /** `toISOString` throws a RangeError beyond 10^8 days from the epoch. */
  const MaxDays: int := 100000000

  datatype IsoResult = NoDate | IsoDate(text: string) | RangeError

  /** `new Date(Math.floor(serial - 25569) * 86400000).toISOString()`, date
      part: the date `floor(serial - 25569)` days after 1970-01-01, or a
      RangeError when that is more than 10^8 days away. The year then always
      fits the six-digit expanded form. */
  function SerialToIso(serial: real): (r: IsoResult)
    ensures !r.NoDate?
    ensures r.RangeError? <==> !(-MaxDays <= (serial - EpochSerial).Floor <= MaxDays)
    ensures r.IsoDate? ==>
              exists d :: ValidDate(d) && DayNumber(d) == (serial - EpochSerial).Floor
                          && -999999 <= d.year <= 999999 && r.text == IsoText(d)
  {
    var days := (serial - EpochSerial).Floor;
    if -MaxDays <= days <= MaxDays then
      var d := CivilFromDays(days);
      YearRange(d);
      IsoDate(IsoText(d))
    else RangeError
  }

  /** Dates within 10^8 days of the epoch have years of at most six digits. */
  lemma {:induction false} YearRange(d: Date)
    requires ValidDate(d) && -MaxDays <= DayNumber(d) <= MaxDays
    ensures -999999 <= d.year <= 999999
  {
    DaysBeforeYearBounds(d.year);
    assert 0 <= DaysBeforeMonth(d.year, d.month) + d.day - 1 < DaysInYear(d.year);
  }

  /** Serial 45658, with or without a time of day, is 2025-01-01. */
  lemma SerialExample()
    ensures SerialToIso(45658.0) == IsoDate("2025-01-01")
    ensures SerialToIso(45658.75) == IsoDate("2025-01-01")
  {
    var d := Date(2025, 1, 1);
    ExampleDayNumber();
    CivilFromDayNumber(d);
    ExampleIsoText();
    ExampleFloor();
  }

  lemma ExampleDayNumber()
    ensures DayNumber(Date(2025, 1, 1)) == 20089
  {
    assert LeapsBefore(2025) == 492;
    assert LeapsBefore(1970) == 478;
  }

  lemma ExampleIsoText()
    ensures IsoText(Date(2025, 1, 1)) == "2025-01-01"
  {
    assert Padded(2, 1) == "2" by {
      assert Padded(2, 1) == Padded(0, 0) + [DigitChar(2)];
    }
    assert Padded(20, 2) == "20" by {
      assert Padded(20, 2) == Padded(2, 1) + [DigitChar(0)];
    }
    assert Padded(202, 3) == "202" by {
      assert Padded(202, 3) == Padded(20, 2) + [DigitChar(2)];
    }
    assert YearText(2025) == "2025" by {
      assert Padded(2025, 4) == Padded(202, 3) + [DigitChar(5)];
    }
    assert Padded(1, 2) == "01" by {
      assert Padded(0, 1) == Padded(0, 0) + [DigitChar(0)];
      assert Padded(1, 2) == Padded(0, 1) + [DigitChar(1)];
    }
    assert "2025" + "-" + "01" + "-" + "01" == "2025-01-01";
  }

  lemma ExampleFloor()
    ensures (45658.0 - EpochSerial).Floor == 20089
    ensures (45658.75 - EpochSerial).Floor == 20089
  {
  }
}
