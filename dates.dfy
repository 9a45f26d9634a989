/** Calendar dates and `parse_date` (tools/health-mcp/src/health_mcp.py:82-98):
    empty or non-text input gives no date, a ten-character text holding '-' is
    read with `strptime('%Y-%m-%d')`, one holding '/' with `strptime('%m/%d/%Y')`,
    and anything else goes to `datetime.fromisoformat`, which is a parameter here.
    The `strptime` fields follow the regular expressions of Python's `_strptime`:
    `%Y` is four digits, `%m` is `1[0-2]|0[1-9]|[1-9]` and `%d` is
    `3[01]|[12]\d|0[1-9]|[1-9]| [1-9]`; in a ten-character text every field
    has to take its two-character form. */
module Dates {
  import opened Wrappers
  import opened Text
  import opened PyJson

  datatype Date = Date(year: int, month: int, day: int)

  predicate IsLeapYear(y: int) {
    y % 4 == 0 && (y % 100 != 0 || y % 400 == 0)
  }

  function DaysInMonth(y: int, m: int): int
    requires 1 <= m <= 12
  {
    if m == 2 then (if IsLeapYear(y) then 29 else 28)
    else if m == 4 || m == 6 || m == 9 || m == 11 then 30
    else 31
  }

  /** A date Python's `datetime.date` can represent. */
  predicate ValidDate(d: Date) {
    1 <= d.year <= 9999 && 1 <= d.month <= 12 && 1 <= d.day <= DaysInMonth(d.year, d.month)
  }

  /** `date(y, m, d)`, which raises for an out-of-range field (caught by `parse_date`). */
  function MakeDate(y: int, m: int, d: int): (r: Option<Date>)
    ensures r.Some? <==> ValidDate(Date(y, m, d))
    ensures r.Some? ==> r.value == Date(y, m, d)
  {
    if 1 <= y <= 9999 && 1 <= m <= 12 && 1 <= d <= DaysInMonth(y, m) then Some(Date(y, m, d)) else None
  }

  /** The Gregorian calendar as `date` checks it: every month has days 1 to 28, day 31
      exists only in January, March, May, July, August, October and December, no
      month has a day 30 but February, and February 29 exists exactly in the leap
      years: every fourth year except centuries not divisible by 400. */
  lemma CalendarRules(y: int, m: int, d: int)
    requires 1 <= y <= 9999 && 1 <= m <= 12
    ensures 1 <= d <= 28 ==> MakeDate(y, m, d).Some?
    ensures MakeDate(y, m, 31).Some? <==> m in {1, 3, 5, 7, 8, 10, 12}
    ensures MakeDate(y, m, 30).Some? <==> m != 2
    ensures MakeDate(y, m, 32).None?
    ensures MakeDate(1900, 2, 29).None? && MakeDate(2000, 2, 29).Some?
    ensures MakeDate(2024, 2, 29).Some? && MakeDate(2023, 2, 29).None?
  {
  }

  function TwoDigits(a: char, b: char): nat
    requires IsDigit(a) && IsDigit(b)
  {
    10 * DigitValue(a) + DigitValue(b)
  }

  /** `%Y` of `strptime`: exactly four digits. */
  function YearField(a: char, b: char, c: char, d: char): Option<int> {
    if IsDigit(a) && IsDigit(b) && IsDigit(c) && IsDigit(d)
    then Some(100 * TwoDigits(a, b) + TwoDigits(c, d)) else None
  }

  /** The two-character forms of `%m`: `1[0-2]` and `0[1-9]`. */
  function MonthField(a: char, b: char): Option<int> {
    if (a == '1' && '0' <= b <= '2') || (a == '0' && '1' <= b <= '9')
    then Some(TwoDigits(a, b)) else None
  }

  /** The two-character forms of `%d`: `3[01]`, `[12]\d`, `0[1-9]` and ` [1-9]`. */
  function DayField(a: char, b: char): Option<int> {
    if (a == '3' && '0' <= b <= '1') || ((a == '1' || a == '2') && IsDigit(b)) || (a == '0' && '1' <= b <= '9')
    then Some(TwoDigits(a, b))
    else if a == ' ' && '1' <= b <= '9' then Some(DigitValue(b))
    else None
  }

  /** `datetime.strptime(s, '%Y-%m-%d').date()` on a ten-character text; None where it raises. */
  function ParseYearFirst(s: string): Option<Date>
    requires |s| == 10
  {
    if s[4] != '-' || s[7] != '-' then None
    else
      match (YearField(s[0], s[1], s[2], s[3]), MonthField(s[5], s[6]), DayField(s[8], s[9]))
      case (Some(y), Some(m), Some(d)) => MakeDate(y, m, d)
      case _ => None
  }

  /** `datetime.strptime(s, '%m/%d/%Y').date()` on a ten-character text; None where it raises. */
  function ParseMonthFirst(s: string): Option<Date>
    requires |s| == 10
  {
    if s[2] != '/' || s[5] != '/' then None
    else
      match (MonthField(s[0], s[1]), DayField(s[3], s[4]), YearField(s[6], s[7], s[8], s[9]))
      case (Some(m), Some(d), Some(y)) => MakeDate(y, m, d)
      case _ => None
  }

  /** `parse_date` on a text. The `fromisoformat` branch is the parameter `fromIso`,
      applied to the text with every 'Z' replaced by "+00:00". */
  function ParseDateText(s: string, fromIso: string -> Option<Date>): Option<Date> {
    if s == [] then None
    else if |s| == 10 && '-' in s then ParseYearFirst(s)
    else if |s| == 10 && '/' in s then ParseMonthFirst(s)
    else fromIso(Replace(s, 'Z', "+00:00"))
  }

  /** `parse_date(v)`: it never raises. A value that is not a text is either falsy
      (None, empty) or makes `len`/`strptime`/`replace` raise inside the `try`. */
  function ParseDate(v: Json, fromIso: string -> Option<Date>): (r: Option<Date>)
    ensures !v.JStr? ==> r.None?
    ensures v == JStr("") ==> r.None?
  {
    match v
    case JStr(s) => ParseDateText(s, fromIso)
    case _ => None
  }

  function Pad2(n: nat): string
    requires n < 100
  {
    [DigitChar(n / 10), DigitChar(n % 10)]
  }

  function Pad4(n: nat): string
    requires n < 10000
  {
    Pad2(n / 100) + Pad2(n % 100)
  }

  /** A field printed the way `date.isoformat()` prints it, at least `width` digits. */
  function Field(n: int, width: nat): string
    requires width == 2 || width == 4
  {
    if width == 2 && 0 <= n < 100 then Pad2(n)
    else if width == 4 && 0 <= n < 10000 then Pad4(n)
    else IntToString(n)
  }

  /** `date.isoformat()`, which is also `str(date)`: YYYY-MM-DD. */
  function IsoFormat(d: Date): string {
    Field(d.year, 4) + "-" + Field(d.month, 2) + "-" + Field(d.day, 2)
  }

  /** The MM/DD/YYYY text that the second `parse_date` branch reads. */
  function UsFormat(d: Date): string {
    Field(d.month, 2) + "/" + Field(d.day, 2) + "/" + Field(d.year, 4)
  }

  /** Python's `a <= b` on dates. */
  predicate NotAfter(a: Date, b: Date) {
    a.year < b.year || (a.year == b.year && (a.month < b.month || (a.month == b.month && a.day <= b.day)))
  }

  lemma DigitRoundTrip(c: char)
    requires IsDigit(c)
    ensures DigitChar(DigitValue(c)) == c
  {
  }

  lemma Pad2Fields(n: nat)
    requires n < 100
    ensures IsDigit(Pad2(n)[0]) && IsDigit(Pad2(n)[1])
    ensures TwoDigits(Pad2(n)[0], Pad2(n)[1]) == n
  {
  }

  lemma Pad2OfField(a: char, b: char)
    requires IsDigit(a) && IsDigit(b)
    ensures Pad2(TwoDigits(a, b)) == [a, b]
  {
    DigitRoundTrip(a);
    DigitRoundTrip(b);
  }

  lemma YearFieldOfPad4(y: nat)
    requires y < 10000
    ensures var t := Pad4(y); |t| == 4 && YearField(t[0], t[1], t[2], t[3]) == Some(y)
  {
    Pad2Fields(y / 100);
    Pad2Fields(y % 100);
  }

  lemma Pad4OfYearField(a: char, b: char, c: char, d: char)
    requires YearField(a, b, c, d).Some?
    ensures Pad4(YearField(a, b, c, d).value) == [a, b, c, d]
  {
    var hi, lo := TwoDigits(a, b), TwoDigits(c, d);
    assert (100 * hi + lo) / 100 == hi && (100 * hi + lo) % 100 == lo;
    Pad2OfField(a, b);
    Pad2OfField(c, d);
  }

  lemma MonthFieldOfPad2(m: int)
    requires 1 <= m <= 12
    ensures MonthField(Pad2(m)[0], Pad2(m)[1]) == Some(m)
  {
    Pad2Fields(m);
  }

  lemma DayFieldOfPad2(d: int)
    requires 1 <= d <= 31
    ensures DayField(Pad2(d)[0], Pad2(d)[1]) == Some(d)
  {
    Pad2Fields(d);
  }

  /** A YYYY-MM-DD text whose three fields read as a valid date parses to it. */
  lemma YearFirstOfFields(s: string, d: Date)
    requires ValidDate(d) && |s| == 10 && s[4] == '-' && s[7] == '-'
    requires YearField(s[0], s[1], s[2], s[3]) == Some(d.year)
    requires MonthField(s[5], s[6]) == Some(d.month) && DayField(s[8], s[9]) == Some(d.day)
    ensures ParseYearFirst(s) == Some(d)
  {
  }

  /** An MM/DD/YYYY text whose three fields read as a valid date parses to it. */
  lemma MonthFirstOfFields(s: string, d: Date)
    requires ValidDate(d) && |s| == 10 && s[2] == '/' && s[5] == '/'
    requires MonthField(s[0], s[1]) == Some(d.month) && DayField(s[3], s[4]) == Some(d.day)
    requires YearField(s[6], s[7], s[8], s[9]) == Some(d.year)
    ensures ParseMonthFirst(s) == Some(d)
  {
  }

  /** Formatting a representable date and parsing the text back gives the date again. */
  lemma IsoFormatRoundTrip(d: Date, fromIso: string -> Option<Date>)
    requires ValidDate(d)
    ensures ParseDate(JStr(IsoFormat(d)), fromIso) == Some(d)
  {
    var yyyy, mm, dd := Pad4(d.year), Pad2(d.month), Pad2(d.day);
    var s := IsoFormat(d);
    assert s == yyyy + "-" + mm + "-" + dd;
    YearFieldOfPad4(d.year);
    MonthFieldOfPad2(d.month);
    DayFieldOfPad2(d.day);
    assert s[0] == yyyy[0] && s[1] == yyyy[1] && s[2] == yyyy[2] && s[3] == yyyy[3];
    assert s[5] == mm[0] && s[6] == mm[1] && s[8] == dd[0] && s[9] == dd[1];
    assert s[4] == '-';
    YearFirstOfFields(s, d);
  }

  /** The same for the MM/DD/YYYY form. */
  lemma UsFormatRoundTrip(d: Date, fromIso: string -> Option<Date>)
    requires ValidDate(d)
    ensures ParseDate(JStr(UsFormat(d)), fromIso) == Some(d)
  {
    var mm, dd, yyyy := Pad2(d.month), Pad2(d.day), Pad4(d.year);
    var s := UsFormat(d);
    assert s == mm + "/" + dd + "/" + yyyy;
    NoDashInPad2(d.month);
    NoDashInPad2(d.day);
    NoDashInPad2(d.year / 100);
    NoDashInPad2(d.year % 100);
    assert '-' !in s;
    YearFieldOfPad4(d.year);
    MonthFieldOfPad2(d.month);
    DayFieldOfPad2(d.day);
    assert s[0] == mm[0] && s[1] == mm[1] && s[3] == dd[0] && s[4] == dd[1];
    assert s[6] == yyyy[0] && s[7] == yyyy[1] && s[8] == yyyy[2] && s[9] == yyyy[3];
    assert s[2] == '/';
    MonthFirstOfFields(s, d);
  }

  lemma NoDashInPad2(n: nat)
    requires n < 100
    ensures '-' !in Pad2(n)
  {
  }

  /** A ten-character text that holds both separators is read as YYYY-MM-DD only,
      and its '/' makes that fail: the MM/DD/YYYY branch is never tried. */
  lemma MixedSeparatorsGiveNoDate(s: string, fromIso: string -> Option<Date>)
    requires |s| == 10 && '-' in s && '/' in s
    ensures ParseDate(JStr(s), fromIso) == None
  {
    var k :| 0 <= k < 10 && s[k] == '/';
    assert ParseDate(JStr(s), fromIso) == ParseYearFirst(s);
    if s[4] == '-' && s[7] == '-' {
      assert k != 4 && k != 7;
      assert YearField(s[0], s[1], s[2], s[3]).None? || MonthField(s[5], s[6]).None?
          || DayField(s[8], s[9]).None?;
    }
  }

  /** Whatever the YYYY-MM-DD branch accepts is a representable date, and when the
      text has no space (the ` [1-9]` day form) it is exactly that date's ISO text. */
  lemma YearFirstIsCanonical(s: string, fromIso: string -> Option<Date>, d: Date)
    requires |s| == 10 && '-' in s && ' ' !in s
    requires ParseDate(JStr(s), fromIso) == Some(d)
    ensures ValidDate(d) && IsoFormat(d) == s
  {
    assert ParseYearFirst(s) == Some(d);
    Pad4OfYearField(s[0], s[1], s[2], s[3]);
    assert s[8] != ' ';
    Pad2OfField(s[5], s[6]);
    Pad2OfField(s[8], s[9]);
    assert IsoFormat(d) == s[0..4] + "-" + s[5..7] + "-" + s[8..10];
    assert s == s[0..4] + [s[4]] + s[5..7] + [s[7]] + s[8..10];
  }

  /** The same for the MM/DD/YYYY branch and the US text. */
  lemma MonthFirstIsCanonical(s: string, fromIso: string -> Option<Date>, d: Date)
    requires |s| == 10 && '-' !in s && '/' in s && ' ' !in s
    requires ParseDate(JStr(s), fromIso) == Some(d)
    ensures ValidDate(d) && UsFormat(d) == s
  {
    assert ParseMonthFirst(s) == Some(d);
    Pad4OfYearField(s[6], s[7], s[8], s[9]);
    assert s[3] != ' ';
    Pad2OfField(s[0], s[1]);
    Pad2OfField(s[3], s[4]);
    assert UsFormat(d) == s[0..2] + "/" + s[3..5] + "/" + s[6..10];
    assert s == s[0..2] + [s[2]] + s[3..5] + [s[5]] + s[6..10];
  }
}
