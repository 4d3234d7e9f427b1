/** Calendar values and `chopin/tools/dates.py`: reading a release range from
    a pair of optional "dd/mm/yyyy" strings with `datetime.strptime`. */
module Dates {
  import opened Common

  datatype Date = Date(year: int, month: int, day: int)

  datatype DateTime = DateTime(date: Date, hour: int, minute: int, second: int, microsecond: int)

  /** A release range: (start, end), both datetimes. */
  datatype ReleaseRange = ReleaseRange(start: DateTime, end: DateTime)

  function Midnight(d: Date): DateTime {
    DateTime(d, 0, 0, 0, 0)
  }

  predicate IsLeap(year: int) {
    year % 4 == 0 && (year % 100 != 0 || year % 400 == 0)
  }

  function DaysInMonth(year: int, month: int): int {
    if month == 2 then (if IsLeap(year) then 29 else 28)
    else if month == 4 || month == 6 || month == 9 || month == 11 then 30
    else 31
  }

  /** What `datetime.date` accepts: years 1 to 9999, real months and days. */
  predicate ValidDate(d: Date) {
    1 <= d.year <= 9999 && 1 <= d.month <= 12 && 1 <= d.day <= DaysInMonth(d.year, d.month)
  }

  /** Chronological order of dates (year, then month, then day). */
  predicate DateLe(a: Date, b: Date) {
    a.year < b.year
    || (a.year == b.year && (a.month < b.month || (a.month == b.month && a.day <= b.day)))
  }

  /** An integer key that orders valid dates chronologically; used as the
      sort key when tracks are sorted by release date. */
  function Ordinal(d: Date): int {
    d.year * 512 + d.month * 32 + d.day
  }

  lemma OrdinalMonotone(a: Date, b: Date)
    requires 1 <= a.month <= 12 && 1 <= a.day <= 31
    requires 1 <= b.month <= 12 && 1 <= b.day <= 31
    ensures DateLe(a, b) <==> Ordinal(a) <= Ordinal(b)
  {
    if a.year < b.year {
      assert Ordinal(a) < (a.year + 1) * 512 <= b.year * 512 < Ordinal(b);
    } else if a.year > b.year {
      assert Ordinal(b) < (b.year + 1) * 512 <= a.year * 512 < Ordinal(a);
    }
  }

  // ---------------------------------------------------------------------
  // strptime with the format "%d/%m/%Y"

  predicate IsDigit(c: char) {
    '0' <= c <= '9'
  }

  function DigitValue(c: char): int
    requires IsDigit(c)
  {
    c as int - '0' as int
  }

  /** Position of the first `c` in `s`. */
  function IndexOf(s: string, c: char): (r: Option<nat>)
    ensures r.None? <==> c !in s
    ensures r.Some? ==> r.value < |s| && s[r.value] == c && c !in s[..r.value]
  {
    if |s| == 0 then None
    else if s[0] == c then Some(0)
    else
      match IndexOf(s[1..], c)
      case None => None
      case Some(i) =>
        assert s[..i + 1] == [s[0]] + s[1..][..i];
        Some(i + 1)
  }

  /** The day directive accepts `3[01]`, `[12]\d`, `0[1-9]`, `[1-9]` or a
      space followed by `[1-9]`. */
  function DayToken(t: string): (r: Option<int>)
    ensures r.Some? ==> 1 <= r.value <= 31
  {
    if |t| == 1 && '1' <= t[0] <= '9' then Some(DigitValue(t[0]))
    else if |t| == 2 && t[0] == ' ' && '1' <= t[1] <= '9' then Some(DigitValue(t[1]))
    else if |t| == 2 && IsDigit(t[0]) && IsDigit(t[1])
         && 1 <= DigitValue(t[0]) * 10 + DigitValue(t[1]) <= 31
    then Some(DigitValue(t[0]) * 10 + DigitValue(t[1]))
    else None
  }

  /** The month directive accepts `1[0-2]`, `0[1-9]` or `[1-9]`. */
  function MonthToken(t: string): (r: Option<int>)
    ensures r.Some? ==> 1 <= r.value <= 12
  {
    if |t| == 1 && '1' <= t[0] <= '9' then Some(DigitValue(t[0]))
    else if |t| == 2 && IsDigit(t[0]) && IsDigit(t[1])
         && 1 <= DigitValue(t[0]) * 10 + DigitValue(t[1]) <= 12
    then Some(DigitValue(t[0]) * 10 + DigitValue(t[1]))
    else None
  }

  /** The year directive takes exactly four digits; anything left after them
      is "unconverted data" and an error. */
  function YearToken(t: string): (r: Option<int>)
    ensures r.Some? ==> 0 <= r.value <= 9999
  {
    if |t| == 4 && IsDigit(t[0]) && IsDigit(t[1]) && IsDigit(t[2]) && IsDigit(t[3])
    then Some(DigitValue(t[0]) * 1000 + DigitValue(t[1]) * 100 + DigitValue(t[2]) * 10 + DigitValue(t[3]))
    else None
  }

  /** `datetime.strptime(s, "%d/%m/%Y")`; `None` where it raises `ValueError`. */
  function ParseDmy(s: string): (r: Option<DateTime>)
    ensures r.Some? ==> ValidDate(r.value.date) && r.value == Midnight(r.value.date)
  {
    match IndexOf(s, '/')
    case None => None
    case Some(i) =>
      var rest := s[i + 1..];
      match IndexOf(rest, '/')
      case None => None
      case Some(j) =>
        match (DayToken(s[..i]), MonthToken(rest[..j]), YearToken(rest[j + 1..]))
        case (Some(d), Some(m), Some(y)) =>
          var date := Date(y, m, d);
          if ValidDate(date) then Some(Midnight(date)) else None
        case _ => None
  }

  // The inverse direction: the zero-padded rendering of a date.

  function Digit(n: int): char
    requires 0 <= n <= 9
  {
    ('0' as int + n) as char
  }

  function Pad2(n: int): string
    requires 0 <= n <= 99
  {
    [Digit(n / 10), Digit(n % 10)]
  }

  function Pad4(n: int): string
    requires 0 <= n <= 9999
  {
    Pad2(n / 100) + Pad2(n % 100)
  }

  /** `strftime("%d/%m/%Y")` of a date whose fields fit the directives. */
  function FormatDmy(d: Date): string
    requires 0 <= d.year <= 9999 && 0 <= d.month <= 99 && 0 <= d.day <= 99
  {
    Pad2(d.day) + "/" + Pad2(d.month) + "/" + Pad4(d.year)
  }

  lemma IndexOfAt(s: string, c: char, i: nat)
    requires i < |s| && s[i] == c && c !in s[..i]
    ensures IndexOf(s, c) == Some(i)
  {
    if i > 0 {
      assert s[0] == s[..i][0];
      assert s[1..][..i - 1] == s[1..i];
      IndexOfAt(s[1..], c, i - 1);
    }
  }

  lemma Pad2Digits(n: int)
    requires 0 <= n <= 99
    ensures IsDigit(Pad2(n)[0]) && IsDigit(Pad2(n)[1])
    ensures DigitValue(Pad2(n)[0]) * 10 + DigitValue(Pad2(n)[1]) == n
    ensures Pad2(n)[0] != '/' && Pad2(n)[1] != '/'
  {
  }

  lemma Pad2Tokens(n: int)
    requires 1 <= n <= 31
    ensures DayToken(Pad2(n)) == Some(n)
    ensures n <= 12 ==> MonthToken(Pad2(n)) == Some(n)
  {
    Pad2Digits(n);
  }

  lemma Pad4Value(n: int)
    requires 0 <= n <= 9999
    ensures YearToken(Pad4(n)) == Some(n)
  {
    Pad2Digits(n / 100);
    Pad2Digits(n % 100);
  }

  /** A string with one more `/` after a slash-free head splits at that
      head. */
  lemma SplitAtSlash(a: string, b: string)
    requires '/' !in a
    ensures IndexOf(a + "/" + b, '/') == Some(|a|)
    ensures (a + "/" + b)[..|a|] == a && (a + "/" + b)[|a| + 1..] == b
  {
    var s := a + "/" + b;
    assert s[..|a|] == a;
    IndexOfAt(s, '/', |a|);
  }

  /** Parsing a zero-padded rendering gives the date back when it is a real
      calendar date, and fails otherwise. */
  lemma ParseFormatDmy(d: Date)
    requires 0 <= d.year <= 9999 && 1 <= d.month <= 12 && 1 <= d.day <= 31
    ensures ParseDmy(FormatDmy(d)) == if ValidDate(d) then Some(Midnight(d)) else None
  {
    var dd, mm, yy := Pad2(d.day), Pad2(d.month), Pad4(d.year);
    Pad2Digits(d.day);
    Pad2Digits(d.month);
    assert '/' !in dd && '/' !in mm;
    var rest := mm + "/" + yy;
    assert FormatDmy(d) == dd + "/" + rest;
    SplitAtSlash(dd, rest);
    SplitAtSlash(mm, yy);
    Pad2Tokens(d.day);
    Pad2Tokens(d.month);
    Pad4Value(d.year);
  }

  lemma PadYear2023()
    ensures Pad4(2023) == "2023"
  {
    assert Pad2(20) == "20" && Pad2(23) == "23";
  }

  lemma FormatJanuary()
    ensures FormatDmy(Date(2023, 1, 10)) == "10/01/2023"
  {
    PadYear2023();
    assert Pad2(10) == "10" && Pad2(1) == "01";
  }

  lemma FormatFebruary()
    ensures FormatDmy(Date(2023, 2, 10)) == "10/02/2023"
  {
    PadYear2023();
    assert Pad2(10) == "10" && Pad2(2) == "02";
  }

  lemma FormatOpenStart()
    ensures FormatDmy(Date(1900, 1, 1)) == "01/01/1900"
  {
    assert Pad4(1900) == "1900" by {
      assert Pad2(19) == "19" && Pad2(0) == "00";
    }
    assert Pad2(1) == "01";
  }

  lemma FormatLeapDay()
    ensures FormatDmy(Date(2023, 2, 29)) == "29/02/2023"
  {
    PadYear2023();
    assert Pad2(29) == "29" && Pad2(2) == "02";
  }

  lemma ParseExampleJanuary()
    ensures ParseDmy("10/01/2023") == Some(Midnight(Date(2023, 1, 10)))
  {
    FormatJanuary();
    ParseFormatDmy(Date(2023, 1, 10));
    assert ValidDate(Date(2023, 1, 10));
  }

  lemma ParseExampleFebruary()
    ensures ParseDmy("10/02/2023") == Some(Midnight(Date(2023, 2, 10)))
  {
    FormatFebruary();
    ParseFormatDmy(Date(2023, 2, 10));
    assert ValidDate(Date(2023, 2, 10));
  }

  lemma ParseExampleOpenStart()
    ensures ParseDmy("01/01/1900") == Some(Midnight(Date(1900, 1, 1)))
  {
    FormatOpenStart();
    ParseFormatDmy(Date(1900, 1, 1));
    assert ValidDate(Date(1900, 1, 1));
  }

  /** 2023 is not a leap year, so the 29th of February is refused. */
  lemma ParseExampleNoLeapDay()
    ensures ParseDmy("29/02/2023") == None
  {
    assert !ValidDate(Date(2023, 2, 29)) by {
      assert 2023 % 4 == 3;
      assert DaysInMonth(2023, 2) == 28;
    }
    FormatLeapDay();
    ParseFormatDmy(Date(2023, 2, 29));
  }

  // ---------------------------------------------------------------------
  // read_date

  /** The raw `release_range` value: a pair of optional strings. */
  datatype RawRange = RawRange(start: Option<string>, end: Option<string>)

  const OpenStart: string := "01/01/1900"

  function ParseOrFail(s: string): Result<DateTime> {
    match ParseDmy(s)
    case Some(dt) => Ok(dt)
    case None => Err(ValueError("time data does not match format '%d/%m/%Y'"))
  }

  /** `read_date`, with `datetime.now()` passed as `now`. Each given bound
      is parsed day first; a missing end is `now` and a missing start is the
      first of January 1900; a bound that does not parse is a `ValueError`. */
  function ReadDate(raw: Option<RawRange>, now: DateTime): (r: Result<Option<ReleaseRange>>)
    ensures r.Err? ==> r.error.ValueError?
    ensures raw.None? ==> r == Ok(None)
    ensures raw == Some(RawRange(None, None)) ==> r == Ok(None)
    ensures raw.Some? && raw.value.start.Some? && raw.value.end.Some?
            ==> var a, b := raw.value.start.value, raw.value.end.value;
                && (r.Ok? <==> ParseDmy(a).Some? && ParseDmy(b).Some?)
                && (r.Ok? ==> r.value == Some(ReleaseRange(ParseDmy(a).value, ParseDmy(b).value)))
    ensures raw.Some? && raw.value.start.Some? && raw.value.end.None?
            ==> var a := raw.value.start.value;
                && (r.Ok? <==> ParseDmy(a).Some?)
                && (r.Ok? ==> r.value == Some(ReleaseRange(ParseDmy(a).value, now)))
    ensures raw.Some? && raw.value.start.None? && raw.value.end.Some?
            ==> var b := raw.value.end.value;
                && (r.Ok? <==> ParseDmy(b).Some?)
                && (r.Ok? ==> r.value == Some(ReleaseRange(Midnight(Date(1900, 1, 1)), ParseDmy(b).value)))
  {
    match raw
    case None => Ok(None)
    case Some(RawRange(Some(a), Some(b))) =>
      (match (ParseOrFail(a), ParseOrFail(b))
       case (Ok(x), Ok(y)) => Ok(Some(ReleaseRange(x, y)))
       case (Err(e), _) => Err(e)
       case (_, Err(e)) => Err(e))
    case Some(RawRange(Some(a), None)) =>
      (match ParseOrFail(a)
       case Ok(x) => Ok(Some(ReleaseRange(x, now)))
       case Err(e) => Err(e))
    case Some(RawRange(None, Some(b))) =>
      ParseExampleOpenStart();
      (match (ParseOrFail(OpenStart), ParseOrFail(b))
       case (Ok(x), Ok(y)) => Ok(Some(ReleaseRange(x, y)))
       case (Err(e), _) => Err(e)
       case (_, Err(e)) => Err(e))
    case Some(RawRange(None, None)) => Ok(None)
  }

  lemma ReadDateExamples(now: DateTime)
    ensures ReadDate(Some(RawRange(Some("10/01/2023"), Some("10/02/2023"))), now)
         == Ok(Some(ReleaseRange(Midnight(Date(2023, 1, 10)), Midnight(Date(2023, 2, 10)))))
    ensures ReadDate(Some(RawRange(Some("10/01/2023"), None)), now)
         == Ok(Some(ReleaseRange(Midnight(Date(2023, 1, 10)), now)))
  {
    ParseExampleJanuary();
    ParseExampleFebruary();
  }

  /** Inclusive membership of a release date in a range (`start.date() <= d <= end.date()`). */
  predicate InRange(d: Date, range: ReleaseRange) {
    DateLe(range.start.date, d) && DateLe(d, range.end.date)
  }
}
