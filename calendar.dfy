/**
 * Calendar dates as Python's datetime sees them: strptime with the formats
 * "%d/%m/%Y" and "%m/%Y", strftime with "%d/%m/%Y", "%Y-%m-%d", "%y-%m",
 * "%Y-%m", "%I:%M:%S %p" and "%H:%M:%S", and the ordering of dates.
 */
module Calendar {
  import opened Wrappers
  import opened Text

  /** A calendar date; ValidDate says when it is one that datetime accepts. */
  datatype Date = Date(day: int, month: int, year: int)

  /** A time of day. */
  datatype Clock = Clock(hour: int, minute: int, second: int)

  /** A reading of the wall clock, as datetime.now() gives it. */
  datatype Timestamp = Timestamp(date: Date, clock: Clock)

  predicate IsLeapYear(y: int)
  {
    y % 4 == 0 && (y % 100 != 0 || y % 400 == 0)
  }

  function DaysInMonth(month: int, year: int): (n: int)
    ensures 28 <= n <= 31
    ensures n == 29 <==> month == 2 && IsLeapYear(year)
  {
    if month == 2 then (if IsLeapYear(year) then 29 else 28)
    else if month == 4 || month == 6 || month == 9 || month == 11 then 30
    else 31
  }

  /** datetime's range: years 1 to 9999 and a day that exists in its month. */
  predicate ValidDate(d: Date)
  {
    1 <= d.year <= 9999 && 1 <= d.month <= 12 && 1 <= d.day <= DaysInMonth(d.month, d.year)
  }

  predicate ValidClock(c: Clock)
  {
    0 <= c.hour < 24 && 0 <= c.minute < 60 && 0 <= c.second < 60
  }

  predicate ValidTimestamp(t: Timestamp)
  {
    ValidDate(t.date) && ValidClock(t.clock)
  }

  /** Chronological order of dates: by year, then month, then day. */
  predicate OnOrBefore(a: Date, b: Date)
  {
    a.year < b.year || (a.year == b.year && (a.month < b.month || (a.month == b.month && a.day <= b.day)))
  }

  /** start <= d <= end, as the reports compare datetimes. */
  predicate Between(start: Date, d: Date, end: Date)
  {
    OnOrBefore(start, d) && OnOrBefore(d, end)
  }

  lemma OnOrBeforeTotalOrder(a: Date, b: Date, c: Date)
    ensures OnOrBefore(a, a)
    ensures OnOrBefore(a, b) || OnOrBefore(b, a)
    ensures OnOrBefore(a, b) && OnOrBefore(b, a) ==> a == b
    ensures OnOrBefore(a, b) && OnOrBefore(b, c) ==> OnOrBefore(a, c)
  {
  }

  /** The text strptime accepts for %d: "3[01]|[12]\d|0[1-9]|[1-9]| [1-9]". */
  predicate DayField(t: string)
  {
    || (|t| == 1 && '1' <= t[0] <= '9')
    || (|t| == 2 && t[0] == ' ' && '1' <= t[1] <= '9')
    || (|t| == 2 && AllDigits(t) && 1 <= DigitsValue(t) <= 31)
  }

  function DayFieldValue(t: string): (n: int)
    requires DayField(t)
    ensures 1 <= n <= 31
  {
    if |t| == 1 then DigitValue(t[0]) else if t[0] == ' ' then DigitValue(t[1]) else DigitsValue(t)
  }

  /** The text strptime accepts for %m: "1[0-2]|0[1-9]|[1-9]". */
  predicate MonthField(t: string)
  {
    (|t| == 1 || |t| == 2) && AllDigits(t) && 1 <= DigitsValue(t) <= 12
  }

  /** The text strptime accepts for %Y: four digits. */
  predicate YearField(t: string)
  {
    |t| == 4 && AllDigits(t)
  }

  /**
   * strptime(s, "%d/%m/%Y"): the three fields must fill the whole string
   * and name a date datetime accepts, or it raises ValueError (None here).
   */
  function ParseDayMonthYear(s: string): (r: Option<Date>)
    ensures r.Some? ==> ValidDate(r.value)
  {
    var p := Split(s, '/');
    if |p| == 3 && DayField(p[0]) && MonthField(p[1]) && YearField(p[2]) then
      var d := Date(DayFieldValue(p[0]), DigitsValue(p[1]), DigitsValue(p[2]));
      if ValidDate(d) then Some(d) else None
    else None
  }

  /** strptime(s, "%m/%Y"): the first day of that month. */
  function ParseMonthYear(s: string): (r: Option<Date>)
    ensures r.Some? ==> ValidDate(r.value) && r.value.day == 1
  {
    var p := Split(s, '/');
    if |p| == 2 && MonthField(p[0]) && YearField(p[1]) then
      var d := Date(1, DigitsValue(p[0]), DigitsValue(p[1]));
      if ValidDate(d) then Some(d) else None
    else None
  }

  /** Reading "MM/YYYY" is reading "01/MM/YYYY": a month stands for its first day. */
  lemma ParseMonthYearIsFirstOfMonth(s: string)
    ensures ParseMonthYear(s) == ParseDayMonthYear("01/" + s)
  {
    assert "01/" + s == "01" + ['/'] + s;
    SplitJoin("01", '/', s);
    assert DigitsValue("01") == 1 by {
      DigitsValueSnoc([], '0');
      DigitsValueSnoc(['0'], '1');
      assert ['0'] + ['1'] == "01";
    }
  }

  /** strftime(d, "%d/%m/%Y"), the date stamp of a recorded sale. */
  function FormatDayMonthYear(d: Date): string
    requires ValidDate(d)
  {
    Pad2(d.day) + "/" + Pad2(d.month) + "/" + Pad4(d.year)
  }

  /** strftime(d, "%Y-%m-%d"), the date stamp of a sale entered at the manager menu. */
  function FormatIso(d: Date): string
    requires ValidDate(d)
  {
    Pad4(d.year) + "-" + Pad2(d.month) + "-" + Pad2(d.day)
  }

  /** Dates written by strftime("%d/%m/%Y") read back as the same date. */
  lemma ParseFormatDayMonthYear(d: Date)
    requires ValidDate(d)
    ensures ParseDayMonthYear(FormatDayMonthYear(d)) == Some(d)
  {
    var a, b, c := Pad2(d.day), Pad2(d.month), Pad4(d.year);
    assert FormatDayMonthYear(d) == a + ['/'] + (b + ['/'] + c);
    SplitJoin(a, '/', b + ['/'] + c);
    SplitJoin(b, '/', c);
    SplitNoSeparator(c, '/');
    Pad2Value(d.day);
    Pad2Value(d.month);
    Pad4Value(d.year);
  }

  /** A date written as "%Y-%m-%d" has no '/', so strptime("%d/%m/%Y") rejects it. */
  lemma IsoDateIsNotDayMonthYear(d: Date)
    requires ValidDate(d)
    ensures ParseDayMonthYear(FormatIso(d)) == None
  {
    var s := FormatIso(d);
    assert forall i :: 0 <= i < |s| ==> s[i] == '-' || IsDigit(s[i]);
    SplitNoSeparator(s, '/');
  }

  /** Three '/'-free fields joined by '/' are read as those three fields. */
  lemma ParseJoinedFields(a: string, b: string, c: string)
    requires '/' !in a && '/' !in b && '/' !in c
    ensures ParseDayMonthYear(a + ['/'] + b + ['/'] + c) ==
      if DayField(a) && MonthField(b) && YearField(c)
         && ValidDate(Date(DayFieldValue(a), DigitsValue(b), DigitsValue(c)))
      then Some(Date(DayFieldValue(a), DigitsValue(b), DigitsValue(c)))
      else None
  {
    assert a + ['/'] + b + ['/'] + c == a + ['/'] + (b + ['/'] + c);
    SplitJoin(a, '/', b + ['/'] + c);
    SplitJoin(b, '/', c);
    SplitNoSeparator(c, '/');
  }

  /** strptime accepts a day and a month without a leading zero. */
  lemma UnpaddedFieldsAccepted()
    ensures ParseDayMonthYear("1/3/2024") == Some(Date(1, 3, 2024))
  {
    assert "1/3/2024" == "1" + ['/'] + "3" + ['/'] + "2024";
    ParseJoinedFields("1", "3", "2024");
    assert DigitsValue("2024") == 2024 by {
      assert "2024"[..3] == "202" && "202"[..2] == "20" && "20"[..1] == "2" && "2"[..0] == "";
    }
    assert DigitsValue("3") == 3 by {
      assert "3"[..0] == "";
    }
  }

  /** The same date written with leading zeros. */
  lemma PaddedFieldsAccepted()
    ensures ParseDayMonthYear("01/03/2024") == Some(Date(1, 3, 2024))
  {
    assert "01/03/2024" == "01" + ['/'] + "03" + ['/'] + "2024";
    ParseJoinedFields("01", "03", "2024");
    assert DigitsValue("2024") == 2024 by {
      assert "2024"[..3] == "202" && "202"[..2] == "20" && "20"[..1] == "2" && "2"[..0] == "";
    }
    assert DigitsValue("03") == 3 by {
      assert "03"[..1] == "0" && "0"[..0] == "";
    }
    assert DigitsValue("01") == 1 by {
      assert "01"[..1] == "0" && "0"[..0] == "";
    }
  }

  /** strftime(d, "%y-%m"): two-digit year and month. */
  function ShortMonthKey(d: Date): string
    requires ValidDate(d)
  {
    Pad2(d.year % 100) + "-" + Pad2(d.month)
  }

  /** strftime(d, "%Y-%m"): four-digit year and month. */
  function LongMonthKey(d: Date): string
    requires ValidDate(d)
  {
    Pad4(d.year) + "-" + Pad2(d.month)
  }

  /** Two padded fields joined by a separator are equal exactly when both fields are. */
  lemma JoinedFieldsEqual(a: string, b: string, c: string, e: string, sep: char)
    requires |a| == |c|
    ensures a + [sep] + b == c + [sep] + e <==> a == c && b == e
  {
    if a + [sep] + b == c + [sep] + e {
      assert a == (a + [sep] + b)[..|a|];
      assert c == (c + [sep] + e)[..|a|];
      assert b == (a + [sep] + b)[|a| + 1..];
      assert e == (c + [sep] + e)[|a| + 1..];
    }
  }

  /** "%y-%m" merges months a century apart and nothing else. */
  lemma ShortMonthKeyEqual(a: Date, b: Date)
    requires ValidDate(a) && ValidDate(b)
    ensures ShortMonthKey(a) == ShortMonthKey(b) <==> a.month == b.month && a.year % 100 == b.year % 100
  {
    JoinedFieldsEqual(Pad2(a.year % 100), Pad2(a.month), Pad2(b.year % 100), Pad2(b.month), '-');
    Pad2Value(a.year % 100); Pad2Value(b.year % 100);
    Pad2Value(a.month); Pad2Value(b.month);
  }

  /** "%Y-%m" tells every month apart. */
  lemma LongMonthKeyEqual(a: Date, b: Date)
    requires ValidDate(a) && ValidDate(b)
    ensures LongMonthKey(a) == LongMonthKey(b) <==> a.month == b.month && a.year == b.year
  {
    JoinedFieldsEqual(Pad4(a.year), Pad2(a.month), Pad4(b.year), Pad2(b.month), '-');
    Pad4Value(a.year); Pad4Value(b.year);
    Pad2Value(a.month); Pad2Value(b.month);
  }

  /** strftime(t, "%I:%M:%S %p"): a 12-hour clock, then AM or PM. */
  function Clock12Text(c: Clock): string
    requires ValidClock(c)
  {
    var h := if c.hour % 12 == 0 then 12 else c.hour % 12;
    Pad2(h) + ":" + Pad2(c.minute) + ":" + Pad2(c.second) + " " + (if c.hour < 12 then "AM" else "PM")
  }

  /** strftime(t, "%H:%M:%S"). */
  function Clock24Text(c: Clock): string
    requires ValidClock(c)
  {
    Pad2(c.hour) + ":" + Pad2(c.minute) + ":" + Pad2(c.second)
  }

  /** datetime.now().strftime("%d/%m/%Y %I:%M:%S %p"). */
  function Stamp12(t: Timestamp): string
    requires ValidTimestamp(t)
  {
    FormatDayMonthYear(t.date) + " " + Clock12Text(t.clock)
  }

  /** datetime.now().strftime("%Y-%m-%d %H:%M:%S"). */
  function Stamp24(t: Timestamp): string
    requires ValidTimestamp(t)
  {
    FormatIso(t.date) + " " + Clock24Text(t.clock)
  }

  /** The hour, minute and second fields of a clock text, without the AM/PM marker. */
  function ClockDigits(c: Clock, h: nat): string
    requires ValidClock(c) && h < 100
  {
    Pad2(h) + ":" + Pad2(c.minute) + ":" + Pad2(c.second)
  }

  lemma DateTextSpaceFree(d: Date)
    requires ValidDate(d)
    ensures ' ' !in FormatDayMonthYear(d)
  {
    var date := FormatDayMonthYear(d);
    assert forall i :: 0 <= i < |date| ==> date[i] == '/' || IsDigit(date[i]);
  }

  lemma ClockDigitsSpaceFree(c: Clock, h: nat)
    requires ValidClock(c) && h < 100
    ensures ' ' !in ClockDigits(c, h)
  {
    var digits := ClockDigits(c, h);
    assert forall i :: 0 <= i < |digits| ==> digits[i] == ':' || IsDigit(digits[i]);
  }

  /**
   * Splitting the 12-hour stamp on spaces gives the date, the clock and the
   * AM/PM marker, so the date piece is the "%d/%m/%Y" text of the day.
   */
  lemma Stamp12Pieces(t: Timestamp)
    requires ValidTimestamp(t)
    ensures var p := Split(Stamp12(t), ' ');
      |p| == 3 && p[0] == FormatDayMonthYear(t.date) && p[1] + " " + p[2] == Clock12Text(t.clock)
  {
    var c := t.clock;
    var h := if c.hour % 12 == 0 then 12 else c.hour % 12;
    var date := FormatDayMonthYear(t.date);
    var digits := ClockDigits(c, h);
    var marker := if c.hour < 12 then "AM" else "PM";
    assert Stamp12(t) == date + [' '] + (digits + [' '] + marker);
    DateTextSpaceFree(t.date);
    ClockDigitsSpaceFree(c, h);
    SplitJoin(date, ' ', digits + [' '] + marker);
    SplitJoin(digits, ' ', marker);
    SplitNoSeparator(marker, ' ');
  }

  /** Splitting the 24-hour stamp on spaces gives its date and its clock. */
  lemma Stamp24Pieces(t: Timestamp)
    requires ValidTimestamp(t)
    ensures var p := Split(Stamp24(t), ' ');
      |p| == 2 && p[0] == FormatIso(t.date) && p[1] == Clock24Text(t.clock)
  {
    var date := FormatIso(t.date);
    var clock := Clock24Text(t.clock);
    assert Stamp24(t) == date + [' '] + clock;
    assert forall i :: 0 <= i < |date| ==> date[i] == '-' || IsDigit(date[i]);
    assert forall i :: 0 <= i < |clock| ==> clock[i] == ':' || IsDigit(clock[i]);
    SplitJoin(date, ' ', clock);
    SplitNoSeparator(clock, ' ');
  }
}
