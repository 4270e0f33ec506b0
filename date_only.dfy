/** Calendar dates handled as text, without time zones
    (src/utils/dateOnly.ts). A date is read from the `full-date` form
    `YYYY-MM-DD` of section 5.6 of RFC 3339, optionally followed by a time
    part starting with 'T'. */
module DateOnly {
  import opened Types
  import opened Text

  datatype DateParts = DateParts(year: int, month: int, day: int)

  /** The pattern /^(\d{4})-(\d{2})-(\d{2})/: four digits, '-', two digits,
      '-', two digits at the start; anything may follow. */
  predicate MatchesDatePrefix(s: string)
  {
    |s| >= 10 && AllDigits(s[0..4]) && s[4] == '-' && AllDigits(s[5..7]) && s[7] == '-'
    && AllDigits(s[8..10])
  }

  /** The date read from the start of an already split and trimmed text. */
  function ParseDatePart(part: string): (r: Option<DateParts>)
    ensures r.Some? ==> r.value.year >= 0 && 1 <= r.value.month <= 12 && 1 <= r.value.day <= 31
  {
    if !MatchesDatePrefix(part) then None
    else
      var year := DigitsValue(part[0..4]);
      var month := DigitsValue(part[5..7]);
      var day := DigitsValue(part[8..10]);
      if month < 1 || month > 12 || day < 1 || day > 31 then None
      else Some(DateParts(year, month, day))
  }

  /** `parseDateOnly`: the text before the first 'T', trimmed, must start with
      the date pattern; month must be 1-12 and day 1-31, with no check of the
      month's real length. */
  function ParseDateOnly(dateStr: string): (r: Option<DateParts>)
    ensures r.Some? ==> r.value.year >= 0 && 1 <= r.value.month <= 12 && 1 <= r.value.day <= 31
  {
    ParseDatePart(Trim(BeforeFirst(dateStr, 'T')))
  }

  /** Only the first ten characters of the split and trimmed text matter. */
  lemma ParseDatePartFirstTen(part: string)
    requires |part| >= 10
    ensures ParseDatePart(part) == ParseDatePart(part[..10])
  {
    assert part[..10][0..4] == part[0..4];
    assert part[..10][5..7] == part[5..7];
    assert part[..10][8..10] == part[8..10];
  }

  /** Text without 'T' and without whitespace at its ends is parsed as it is. */
  lemma ParseOfPlainText(s: string)
    requires 'T' !in s
    requires s == [] || (!IsWhitespace(s[0]) && !IsWhitespace(s[|s| - 1]))
    ensures ParseDateOnly(s) == ParseDatePart(s)
  {
    BeforeFirstAbsent(s, 'T');
    TrimOfTrimmed(s);
  }

  lemma {:induction false} DigitsValueBound(s: string)
    requires AllDigits(s)
    ensures DigitsValue(s) < Pow10(|s|)
    decreases |s|
  {
    if s != [] {
      DigitsValueBound(s[..|s| - 1]);
    }
  }

  function Pow10(k: nat): (r: nat)
    ensures r >= 1
  {
    if k == 0 then 1 else 10 * Pow10(k - 1)
  }

  /** A parsed year has at most four digits. */
  lemma ParsedYearBound(dateStr: string)
    requires ParseDateOnly(dateStr).Some?
    ensures ParseDateOnly(dateStr).value.year <= 9999
  {
    var part := Trim(BeforeFirst(dateStr, 'T'));
    DigitsValueBound(part[0..4]);
    assert Pow10(4) == 10000;
  }

  lemma BeforeFirstAbsent(s: string, c: char)
    requires c !in s
    ensures BeforeFirst(s, c) == s
  {
  }

  /** Whatever follows the date, from a 'T' on, is ignored: the stored
      `YYYY-MM-DDTHH:MM:SSZ` form parses to the same date as its date part. */
  lemma ParseIgnoresTimePart(date: string, time: string)
    requires 'T' !in date
    ensures ParseDateOnly(date + "T" + time) == ParseDateOnly(date)
  {
    BeforeFirstOfJoin(date, 'T', time);
    assert date + "T" + time == date + ['T'] + time;
    BeforeFirstAbsent(date, 'T');
  }

  /** Characters after a well-formed ten-character date are ignored when
      there is no 'T' to split at. */
  lemma ParseIgnoresTrailing(date: string, rest: string)
    requires |date| == 10 && MatchesDatePrefix(date)
    requires 'T' !in date + rest
    ensures ParseDateOnly(date + rest) == ParseDateOnly(date)
  {
    var s := date + rest;
    assert s[..10] == date;
    assert 'T' !in date by {
      forall i | 0 <= i < |date| ensures date[i] != 'T' {
        assert s[i] == date[i];
      }
    }
    assert IsDigit(date[0..4][0]) && IsDigit(date[8..10][1]);
    ParseOfPlainText(date);
    BeforeFirstAbsent(s, 'T');
    TrimKeepsPrefix(s, 10);
    ParseDatePartFirstTen(Trim(s));
  }

  /** The English month name for 1-12 (MONTH_NAMES). */
  function MonthName(month: int): string
    requires 1 <= month <= 12
  {
    match month
    case 1 => "January" case 2 => "February" case 3 => "March" case 4 => "April"
    case 5 => "May" case 6 => "June" case 7 => "July" case 8 => "August"
    case 9 => "September" case 10 => "October" case 11 => "November" case _ => "December"
  }

  /** The month number a month name stands for. */
  function MonthNumber(name: string): Option<int>
  {
    if name == "January" then Some(1) else if name == "February" then Some(2)
    else if name == "March" then Some(3) else if name == "April" then Some(4)
    else if name == "May" then Some(5) else if name == "June" then Some(6)
    else if name == "July" then Some(7) else if name == "August" then Some(8)
    else if name == "September" then Some(9) else if name == "October" then Some(10)
    else if name == "November" then Some(11) else if name == "December" then Some(12)
    else None
  }

  lemma MonthNameFacts(month: int)
    requires 1 <= month <= 12
    ensures MonthNumber(MonthName(month)) == Some(month)
    ensures ' ' !in MonthName(month)
  {
  }

  /** The display form "<Month> <day>, <year>", day and year unpadded. */
  function DisplayDate(p: DateParts): string
    requires 1 <= p.month <= 12 && p.day >= 0
  {
    MonthName(p.month) + " " + NatToString(p.day) + ", " + IntToString(p.year)
  }

  /** `formatDateOnly`: the display form of the parsed date, or the input
      itself when it does not parse. */
  function FormatDateOnly(dateStr: string): (r: string)
    ensures ParseDateOnly(dateStr).None? ==> r == dateStr
  {
    var p := ParseDateOnly(dateStr);
    if p.None? then dateStr else DisplayDate(p.value)
  }

  /** Reads "<day>, <year>" back: day digits, ", ", year digits. */
  function ReadDayYear(rest: string): Option<(nat, nat)>
  {
    var dayText := BeforeFirst(rest, ',');
    if |rest| < |dayText| + 2 then None
    else
      var yearText := rest[|dayText| + 2..];
      if !AllDigits(dayText) || !AllDigits(yearText) then None
      else Some((DigitsValue(dayText), DigitsValue(yearText)))
  }

  /** Reads a display form back: name, ' ', then day and year. */
  function ReadDisplay(s: string): Option<DateParts>
  {
    var name := BeforeFirst(s, ' ');
    if |name| == |s| then None
    else
      var dayYear := ReadDayYear(s[|name| + 1..]);
      if MonthNumber(name).None? || dayYear.None? then None
      else Some(DateParts(dayYear.value.1, MonthNumber(name).value, dayYear.value.0))
  }

  lemma {:induction false} ReadDayYearOf(dayText: string, yearText: string)
    requires AllDigits(dayText) && AllDigits(yearText)
    ensures ReadDayYear(dayText + ", " + yearText) == Some((DigitsValue(dayText), DigitsValue(yearText)))
  {
    var rest := dayText + ", " + yearText;
    assert ',' !in dayText by {
      forall i | 0 <= i < |dayText| ensures dayText[i] != ',' {
        assert IsDigit(dayText[i]);
      }
    }
    assert rest == dayText + [','] + (" " + yearText);
    BeforeFirstOfJoin(dayText, ',', " " + yearText);
    assert rest[|dayText| + 2..] == yearText;
  }

  /** Reading "<name> <day>, <year>" splits it back into its three parts. */
  lemma {:induction false} ReadDisplayParts(name: string, dayText: string, yearText: string)
    requires ' ' !in name && MonthNumber(name).Some?
    requires AllDigits(dayText) && AllDigits(yearText)
    ensures ReadDisplay(name + " " + dayText + ", " + yearText)
            == Some(DateParts(DigitsValue(yearText), MonthNumber(name).value, DigitsValue(dayText)))
  {
    var rest := dayText + ", " + yearText;
    var s := name + " " + dayText + ", " + yearText;
    assert s == name + [' '] + rest;
    BeforeFirstOfJoin(name, ' ', rest);
    assert s[|name| + 1..] == rest;
    ReadDayYearOf(dayText, yearText);
  }

  /** The display form of a date with a non-negative year reads back as
      that date. */
  lemma ReadDisplayOf(p: DateParts)
    requires p.year >= 0 && 1 <= p.month <= 12 && 1 <= p.day <= 31
    ensures ReadDisplay(DisplayDate(p)) == Some(p)
  {
    MonthNameFacts(p.month);
    NatToStringRoundTrip(p.day);
    NatToStringRoundTrip(p.year);
    ReadDisplayParts(MonthName(p.month), NatToString(p.day), NatToString(p.year));
  }

  /** The display form loses nothing: every parsed date can be read back from
      what `formatDateOnly` shows. */
  lemma DisplayRoundTrip(dateStr: string)
    requires ParseDateOnly(dateStr).Some?
    ensures ReadDisplay(FormatDateOnly(dateStr)) == ParseDateOnly(dateStr)
  {
    ReadDisplayOf(ParseDateOnly(dateStr).value);
  }

  /** `formatYearOnly`: the parsed year in decimal, or the input itself. */
  function FormatYearOnly(dateStr: string): (r: string)
    ensures ParseDateOnly(dateStr).None? ==> r == dateStr
  {
    var p := ParseDateOnly(dateStr);
    if p.None? then dateStr else IntToString(p.value.year)
  }

  /** `getYearFromDateOnly`: the parsed year, or null. */
  function GetYearFromDateOnly(dateStr: string): (r: Option<int>)
    ensures r.Some? <==> ParseDateOnly(dateStr).Some?
  {
    var p := ParseDateOnly(dateStr);
    if p.None? then None else Some(p.value.year)
  }

  /** The year shown by `formatYearOnly` is the number `getYearFromDateOnly`
      returns, written in decimal digits. */
  lemma YearFormsAgree(dateStr: string)
    requires GetYearFromDateOnly(dateStr).Some?
    ensures AllDigits(FormatYearOnly(dateStr))
    ensures DigitsValue(FormatYearOnly(dateStr)) == GetYearFromDateOnly(dateStr).value
  {
    NatToStringRoundTrip(GetYearFromDateOnly(dateStr).value);
  }

  predicate IsLeapYear(y: int)
  {
    y % 4 == 0 && (y % 100 != 0 || y % 400 == 0)
  }

  /** `new Date(year, month, 0).getDate()` for month 1-12: the length of that
      month in the Gregorian calendar, where JavaScript reads a year 0-99 as
      1900-1999 (so year 0 has a 28-day February). */
  function DaysInMonth(year: int, month: int): (n: int)
    requires 1 <= month <= 12
    ensures 28 <= n <= 31
  {
    var y := if 0 <= year <= 99 then 1900 + year else year;
    if month == 2 then (if IsLeapYear(y) then 29 else 28)
    else if month == 4 || month == 6 || month == 9 || month == 11 then 30
    else 31
  }

  /** A month index `year * 12 + month` with `month` in 1-12 determines both. */
  lemma MonthIndexUnique(y1: int, m1: int, y2: int, m2: int)
    requires 1 <= m1 <= 12 && 1 <= m2 <= 12
    requires y1 * 12 + m1 == y2 * 12 + m2
    ensures y1 == y2 && m1 == m2
  {
  }

  /** The year and month `months` months before (`year`, `month`). */
  function ShiftMonth(year: int, month: int, months: int): (r: (int, int))
    ensures 1 <= r.1 <= 12
    ensures r.0 * 12 + r.1 == year * 12 + month - months
  {
    var t := year * 12 + (month - 1) - months;
    (t / 12, t % 12 + 1)
  }

  /** Going back `months` months and then forward as many restores the month. */
  lemma ShiftMonthInverse(year: int, month: int, months: int)
    requires 1 <= month <= 12
    ensures var (y, m) := ShiftMonth(year, month, months); ShiftMonth(y, m, -months) == (year, month)
  {
    var (y, m) := ShiftMonth(year, month, months);
    var (y2, m2) := ShiftMonth(y, m, -months);
    MonthIndexUnique(y2, m2, year, month);
  }

  /** The date `months` months before `p`, its day clamped to the length of
      the target month. */
  function ShiftDate(p: DateParts, months: int): (r: DateParts)
    requires 1 <= p.day
    ensures 1 <= r.month <= 12
    ensures r.year * 12 + r.month == p.year * 12 + p.month - months
    ensures 1 <= r.day <= p.day && r.day <= DaysInMonth(r.year, r.month)
    ensures r.day == p.day || r.day == DaysInMonth(r.year, r.month)
  {
    var (y, m) := ShiftMonth(p.year, p.month, months);
    var n := DaysInMonth(y, m);
    DateParts(y, m, if p.day < n then p.day else n)
  }

  /** The `${year}-MM-DD` text: month and day two digits, year unpadded. */
  function IsoDate(p: DateParts): string
    requires 1 <= p.month <= 12 && 1 <= p.day <= 31
  {
    IntToString(p.year) + "-" + Pad2(p.month) + "-" + Pad2(p.day)
  }

  /** `subtractMonthsFromDateOnly`: unparsable input comes back unchanged;
      otherwise the date `months` months earlier (later for negative
      `months`), normalised by the two loops of the source. */
  method SubtractMonthsFromDateOnly(dateStr: string, months: int) returns (r: string)
    ensures ParseDateOnly(dateStr).None? ==> r == dateStr
    ensures ParseDateOnly(dateStr).Some? ==> r == IsoDate(ShiftDate(ParseDateOnly(dateStr).value, months))
  {
    var p := ParseDateOnly(dateStr);
    if p.None? {
      return dateStr;
    }
    var year := p.value.year;
    var month := p.value.month - months;
    while month < 1
      invariant year * 12 + month == p.value.year * 12 + p.value.month - months
      decreases 1 - month
    {
      month := month + 12;
      year := year - 1;
    }
    while month > 12
      invariant month >= 1
      invariant year * 12 + month == p.value.year * 12 + p.value.month - months
      decreases month
    {
      month := month - 12;
      year := year + 1;
    }
    var spec := ShiftDate(p.value, months);
    MonthIndexUnique(year, month, spec.year, spec.month);
    var daysInMonth := DaysInMonth(year, month);
    var day := if p.value.day < daysInMonth then p.value.day else daysInMonth;
    r := IntToString(year) + "-" + Pad2(month) + "-" + Pad2(day);
  }

  lemma ShortNatToString(n: nat)
    requires n < 1000
    ensures |NatToString(n)| <= 3
  {
    if n >= 10 {
      assert |NatToString(n / 10)| <= 2 by {
        if n / 10 >= 10 {
          assert |NatToString(n / 10 / 10)| == 1;
        }
      }
    }
  }

  lemma NoLetterTInDigits(s: string)
    requires AllDigits(s)
    ensures 'T' !in s
  {
  }

  /** The text `IsoDate` builds has no 'T' and no whitespace at its ends. */
  lemma IsoDatePlain(p: DateParts)
    requires 1 <= p.month <= 12 && 1 <= p.day <= 31
    ensures 'T' !in IsoDate(p)
    ensures !IsWhitespace(IsoDate(p)[0]) && !IsWhitespace(IsoDate(p)[|IsoDate(p)| - 1])
  {
    var ys := NatToString(if p.year < 0 then -p.year else p.year);
    NoLetterTInDigits(ys);
    NoLetterTInDigits(Pad2(p.month));
    NoLetterTInDigits(Pad2(p.day));
    var s := IsoDate(p);
    assert s[|s| - 1] == Pad2(p.day)[1];
  }

  /** The `${year}-MM-DD` text of a date with a four-digit year parses back to
      that date (for every month, including a day 31 that the month does not
      have). */
  lemma IsoDateReparses(p: DateParts)
    requires 1000 <= p.year <= 9999 && 1 <= p.month <= 12 && 1 <= p.day <= 31
    ensures ParseDateOnly(IsoDate(p)) == Some(p)
  {
    var ys, ms, ds := NatToString(p.year), Pad2(p.month), Pad2(p.day);
    FourDigitLength(p.year);
    NatToStringRoundTrip(p.year);
    var s := IsoDate(p);
    assert s == ys + "-" + ms + "-" + ds;
    DateTextSlices(ys, ms, ds);
    IsoDatePlain(p);
    ParseOfPlainText(s);
    ParseDatePartOf(s, p);
  }

  /** Where the parts of a `YYYY-MM-DD` text sit. */
  lemma DateTextSlices(ys: string, ms: string, ds: string)
    requires |ys| == 4 && |ms| == 2 && |ds| == 2
    ensures var s := ys + "-" + ms + "-" + ds;
            |s| == 10 && s[0..4] == ys && s[4] == '-' && s[5..7] == ms && s[7] == '-' && s[8..10] == ds
  {
  }

  lemma ParseDatePartOf(s: string, p: DateParts)
    requires MatchesDatePrefix(s)
    requires DigitsValue(s[0..4]) == p.year
    requires DigitsValue(s[5..7]) == p.month && DigitsValue(s[8..10]) == p.day
    requires 1 <= p.month <= 12 && 1 <= p.day <= 31
    ensures ParseDatePart(s) == Some(p)
  {
  }

  /** A date whose year is below 1000 (or negative) is written with fewer
      than four year digits, which `parseDateOnly` then rejects. */
  lemma ShortYearDoesNotReparse(p: DateParts)
    requires p.year < 1000 && 1 <= p.month <= 12 && 1 <= p.day <= 31
    ensures ParseDateOnly(IsoDate(p)).None?
  {
    var s := IsoDate(p);
    IsoDatePlain(p);
    ParseOfPlainText(s);
    if p.year >= 0 {
      var ys := NatToString(p.year);
      ShortNatToString(p.year);
      assert s[|ys|] == '-';
      assert !IsDigit(s[0..4][|ys|]);
    } else {
      assert s[0] == '-';
      assert !IsDigit(s[0..4][0]);
    }
  }

  lemma {:induction false} LongNatToString(n: nat)
    requires n >= 10000
    ensures |NatToString(n)| >= 5
    decreases n
  {
    if n / 10 >= 10000 {
      LongNatToString(n / 10);
    } else {
      FourDigitLength(n / 10);
    }
  }

  /** A date whose year is 10000 or more is written with more than four
      year digits, so the fifth character is a digit where the pattern wants
      '-', and `parseDateOnly` rejects it. */
  lemma {:induction false} LongYearDoesNotReparse(p: DateParts)
    requires p.year >= 10000 && 1 <= p.month <= 12 && 1 <= p.day <= 31
    ensures ParseDateOnly(IsoDate(p)).None?
  {
    var s := IsoDate(p);
    IsoDatePlain(p);
    ParseOfPlainText(s);
    LongNatToString(p.year);
    assert s[4] == NatToString(p.year)[4];
  }
}
