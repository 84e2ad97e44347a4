/**
 * The domain layer: the three input validators (INN, birthday, enforcement
 * proceeding number) and the DebtorCase record built from the parser's rows.
 * A validator either hands its input back unchanged or fails with the
 * message the source raises as a ValueError.
 */
module Models {
  import opened Wrappers
  import opened Text
  import Parser

  // ---------------------------------------------------------------------------
  // INN
  // ---------------------------------------------------------------------------

  const InnMessage := "ИНН должен содержать 10 или 12 цифр"

  /** `\d{10}(\d{2})?` matched against the whole text: ten decimal digits,
      then either nothing or one group of two more. */
  predicate InnPattern(inn: string) {
    |inn| >= 10 && AllDigits(inn[..10])
    && (inn[10..] == [] || (|inn[10..]| == 2 && AllDigits(inn[10..])))
  }

  /** The pattern holds exactly for the texts of ten or twelve decimal digits. */
  lemma InnPatternDigits(inn: string)
    ensures InnPattern(inn) <==> (|inn| == 10 || |inn| == 12) && AllDigits(inn)
  {
    if |inn| >= 10 {
      assert inn == inn[..10] + inn[10..];
      assert forall k :: 0 <= k < 10 ==> inn[..10][k] == inn[k];
      assert forall k :: 10 <= k < |inn| ==> inn[10..][k - 10] == inn[k];
    }
  }

  /** validate_inn: the text itself when the pattern matches it whole,
      otherwise the INN message. */
  function ValidateInn(inn: string): (r: Result<string, string>)
    ensures r.Success? <==> (|inn| == 10 || |inn| == 12) && AllDigits(inn)
    ensures r.Success? ==> r.value == inn
    ensures r.Failure? ==> r.error == InnMessage
  {
    InnPatternDigits(inn);
    if InnPattern(inn) then Success(inn) else Failure(InnMessage)
  }

  /** An organisation's ten-digit INN and a person's twelve-digit one pass. */
  lemma InnExamples()
    ensures ValidateInn("7707083893").Success?
    ensures ValidateInn("500100732259").Success?
  {
  }

  /** Eleven digits, or a letter in place of a digit, do not pass. */
  lemma InnCounterExamples()
    ensures ValidateInn("77070838931") == Failure(InnMessage)
    ensures ValidateInn("770708389O") == Failure(InnMessage)
  {
    assert !IsDigit("770708389O"[9]);
  }

  // ---------------------------------------------------------------------------
  // Decimal renderings, used to relate birthdays and dates
  // ---------------------------------------------------------------------------

  /** n written with exactly w ASCII digits (leading zeros kept). */
  function Digits(n: nat, w: nat): (s: string)
    ensures |s| == w
  {
    if w == 0 then [] else Digits(n / 10, w - 1) + [('0' as int + n % 10) as char]
  }

  predicate AllAscii(s: string) {
    forall k :: 0 <= k < |s| ==> s[k] <= '\U{7F}'
  }

  /** Reading back a rendering gives the number, provided it fits the width. */
  lemma {:induction false} DigitsValue(n: nat, w: nat)
    requires n < Pow10(w)
    ensures AllDigits(Digits(n, w)) && AllAscii(Digits(n, w))
    ensures DecimalValue(Digits(n, w)) == n
  {
    if w > 0 {
      assert n / 10 < Pow10(w - 1) by {
        assert Pow10(w) == 10 * Pow10(w - 1);
      }
      DigitsValue(n / 10, w - 1);
      var p := Digits(n / 10, w - 1);
      var c := ('0' as int + n % 10) as char;
      var s := Digits(n, w);
      assert s == p + [c];
      AppendDigit(p, c);
      assert s[..w - 1] == p;
      assert DigitValue(c) == n % 10;
    }
  }

  lemma AppendDigit(p: string, c: char)
    requires AllDigits(p) && AllAscii(p) && '0' <= c <= '9'
    ensures AllDigits(p + [c]) && AllAscii(p + [c])
  {
    assert forall k :: 0 <= k < |p| ==> (p + [c])[k] == p[k];
  }

  /** Rendering the value of an ASCII digit string at its own width gives the
      string back. */
  lemma {:induction false} ValueDigits(s: string)
    requires AllDigits(s) && AllAscii(s)
    ensures Digits(DecimalValue(s), |s|) == s
  {
    if s != [] {
      var p := s[..|s| - 1];
      ValueDigits(p);
      var v := DecimalValue(s);
      assert v / 10 == DecimalValue(p) && v % 10 == DigitValue(s[|s| - 1]);
      assert s == p + [s[|s| - 1]];
    }
  }

  // ---------------------------------------------------------------------------
  // Birthday
  // ---------------------------------------------------------------------------

  /** A calendar date of Python's proleptic Gregorian `datetime`. */
  datatype Date = Date(year: int, month: int, day: int)

  predicate IsLeap(year: int) {
    year % 4 == 0 && (year % 100 != 0 || year % 400 == 0)
  }

  function DaysInMonth(year: int, month: int): int {
    if month == 2 then (if IsLeap(year) then 29 else 28)
    else if month == 4 || month == 6 || month == 9 || month == 11 then 30
    else 31
  }

  /** The dates `datetime` can represent: years 1 to 9999. */
  predicate IsCalendarDate(d: Date) {
    1 <= d.year <= 9999 && 1 <= d.month <= 12 && 1 <= d.day <= DaysInMonth(d.year, d.month)
  }

  /** d falls on a later day than today. The birthday is compared as midnight
      with the current moment, which is later exactly when the day is later. */
  predicate Later(d: Date, today: Date) {
    d.year > today.year
    || (d.year == today.year && d.month > today.month)
    || (d.year == today.year && d.month == today.month && d.day > today.day)
  }

  /** `\d{2}\.\d{2}\.\d{4}` matched against the whole text. */
  predicate BirthdayShape(s: string) {
    |s| == 10 && IsDigit(s[0]) && IsDigit(s[1]) && s[2] == '.'
    && IsDigit(s[3]) && IsDigit(s[4]) && s[5] == '.' && AllDigits(s[6..])
  }

  /** The two-character day strptime's %d accepts: 3[01], [12]\d or 0[1-9]. */
  predicate DayField(a: char, b: char) {
    (a == '3' && (b == '0' || b == '1')) || ((a == '1' || a == '2') && IsDigit(b))
    || (a == '0' && '1' <= b <= '9')
  }

  /** The two-character month strptime's %m accepts: 1[0-2] or 0[1-9]. */
  predicate MonthField(a: char, b: char) {
    (a == '1' && '0' <= b <= '2') || (a == '0' && '1' <= b <= '9')
  }

  /** What `datetime.strptime(s, "%d.%m.%Y")` does with a well-shaped text: the
      format does not match ("time data ... does not match format"), the
      fields match but name no calendar date ("day is out of range for month",
      "year 0 is out of range"), or it yields a date. */
  datatype Strptime = NoMatch | RangeError | Parsed(date: Date)

  function ParseDate(s: string): (p: Strptime)
    requires BirthdayShape(s)
    ensures p.NoMatch? <==> !DayField(s[0], s[1]) || !MonthField(s[3], s[4])
    ensures p.Parsed? ==> IsCalendarDate(p.date)
  {
    if !DayField(s[0], s[1]) || !MonthField(s[3], s[4]) then NoMatch
    else
      var d := FieldsDate(s);
      if IsCalendarDate(d) then Parsed(d) else RangeError
  }

  /** The day, month and year fields of a well-shaped text, read as numbers. */
  function FieldsDate(s: string): Date
    requires BirthdayShape(s)
  {
    PairDigits(s, 0);
    PairDigits(s, 3);
    Date(DecimalValue(s[6..]), DecimalValue(s[3..5]), DecimalValue(s[0..2]))
  }

  lemma PairDigits(s: string, i: nat)
    requires i + 2 <= |s| && IsDigit(s[i]) && IsDigit(s[i + 1])
    ensures AllDigits(s[i..i + 2])
  {
    assert s[i..i + 2] == [s[i], s[i + 1]];
  }

  /** The ways validate_birthday fails. DayOutOfRange and YearOutOfRange are
      datetime's own ValueErrors, which the validator lets through unchanged:
      the date constructor checks the year (1 to 9999) before the day. */
  datatype BirthdayError = BadFormat | BadDate | DayOutOfRange | YearOutOfRange | InFuture | Before1900
  {
    function Message(): string {
      match this
      case BadFormat => "Дата рождения должна быть в формате DD.MM.YYYY (например, 16.05.1992)"
      case BadDate => "Некорректная дата рождения"
      case DayOutOfRange => "day is out of range for month"
      case YearOutOfRange => "year 0 is out of range"
      case InFuture => "Дата рождения не может быть в будущем"
      case Before1900 => "Дата рождения не может быть раньше 1900 года"
    }
  }

  /** validate_birthday as written, with the current date as a parameter. */
  function ValidateBirthday(s: string, today: Date): (r: Result<string, BirthdayError>)
    ensures r.Success? ==> r.value == s
    ensures r == Failure(BadFormat) <==> !BirthdayShape(s)
    ensures r.Success? <==>
              BirthdayShape(s) && ParseDate(s).Parsed? && IsCalendarDate(ParseDate(s).date)
              && !Later(ParseDate(s).date, today) && ParseDate(s).date.year >= 1900
    ensures BirthdayShape(s) && ParseDate(s).NoMatch? ==> r == Failure(BadDate)
    ensures BirthdayShape(s) && ParseDate(s).RangeError? ==>
              r == Failure(if FieldsDate(s).year == 0 then YearOutOfRange else DayOutOfRange)
    ensures BirthdayShape(s) && ParseDate(s).Parsed? && Later(ParseDate(s).date, today)
            ==> r == Failure(InFuture)
    ensures (BirthdayShape(s) && ParseDate(s).Parsed? && !Later(ParseDate(s).date, today)
             && ParseDate(s).date.year < 1900) ==> r == Failure(Before1900)
  {
    if !BirthdayShape(s) then Failure(BadFormat)
    else match ParseDate(s)
      case NoMatch => Failure(BadDate)
      case RangeError => Failure(if FieldsDate(s).year == 0 then YearOutOfRange else DayOutOfRange)
      case Parsed(d) =>
        if Later(d, today) then Failure(InFuture)
        else if d.year < 1900 then Failure(Before1900)
        else Success(s)
  }

  /** DD.MM.YYYY with ASCII digits. */
  function FormatDate(d: Date): (s: string)
    requires 0 <= d.day < 100 && 0 <= d.month < 100 && 0 <= d.year < 10000
    ensures |s| == 10
  {
    Digits(d.day, 2) + "." + Digits(d.month, 2) + "." + Digits(d.year, 4)
  }

  lemma TwoDigitChars(n: nat)
    requires n < 100
    ensures Digits(n, 2) == [('0' as int + n / 10) as char, ('0' as int + n % 10) as char]
  {
  }

  /** The DD.MM.YYYY rendering of fields in strptime's ranges is well shaped and
      strptime reads the same fields back: as the date when there is one, as
      datetime's range error otherwise. */
  lemma RenderingParses(d: Date)
    requires 1 <= d.day <= 31 && 1 <= d.month <= 12 && 0 <= d.year <= 9999
    ensures BirthdayShape(FormatDate(d))
    ensures ParseDate(FormatDate(d)) == if IsCalendarDate(d) then Parsed(d) else RangeError
    ensures FieldsDate(FormatDate(d)) == d
  {
    var s := FormatDate(d);
    FormatPieces(d);
    DigitsValue(d.day, 2);
    DigitsValue(d.month, 2);
    DigitsValue(d.year, 4);
    FieldChars(d);
    assert FieldsDate(s) == d;
  }

  /** Where the three fields of a rendering lie. */
  lemma FormatPieces(d: Date)
    requires 0 <= d.day < 100 && 0 <= d.month < 100 && 0 <= d.year < 10000
    ensures FormatDate(d)[0..2] == Digits(d.day, 2)
    ensures FormatDate(d)[3..5] == Digits(d.month, 2)
    ensures FormatDate(d)[6..] == Digits(d.year, 4)
    ensures FormatDate(d)[2] == '.' && FormatDate(d)[5] == '.'
  {
  }

  /** The rendering is well shaped, and its day and month fields are ones
      strptime accepts. */
  lemma FieldChars(d: Date)
    requires 1 <= d.day <= 31 && 1 <= d.month <= 12 && 0 <= d.year <= 9999
    ensures BirthdayShape(FormatDate(d))
    ensures DayField(FormatDate(d)[0], FormatDate(d)[1])
    ensures MonthField(FormatDate(d)[3], FormatDate(d)[4])
  {
    var s := FormatDate(d);
    FormatPieces(d);
    DigitsValue(d.year, 4);
    TwoDigitChars(d.day);
    TwoDigitChars(d.month);
    assert s[0] == Digits(d.day, 2)[0] && s[1] == Digits(d.day, 2)[1];
    assert s[3] == Digits(d.month, 2)[0] && s[4] == Digits(d.month, 2)[1];
  }

  /** Every real date from 1900 up to today, written DD.MM.YYYY, is accepted. */
  lemma AcceptsEveryPastDate(d: Date, today: Date)
    requires IsCalendarDate(d) && d.year >= 1900 && !Later(d, today)
    ensures ValidateBirthday(FormatDate(d), today) == Success(FormatDate(d))
  {
    RenderingParses(d);
  }

  /** Conversely, an accepted birthday written in ASCII is exactly the DD.MM.YYYY
      rendering of the date it names. */
  lemma AcceptedIsRendering(s: string, today: Date)
    requires ValidateBirthday(s, today).Success? && AllAscii(s)
    ensures FormatDate(ParseDate(s).date) == s
  {
    var day, month, year := s[0..2], s[3..5], s[6..];
    ShapePieces(s);
    AsciiPiece(s, 0, 2);
    AsciiPiece(s, 3, 5);
    AsciiPiece(s, 6, 10);
    ValueDigits(day);
    ValueDigits(month);
    ValueDigits(year);
    assert ParseDate(s).date == Date(DecimalValue(year), DecimalValue(month), DecimalValue(day));
  }

  /** The three numeric fields of a well-shaped birthday, and the dots between. */
  lemma ShapePieces(s: string)
    requires BirthdayShape(s)
    ensures AllDigits(s[0..2]) && AllDigits(s[3..5])
    ensures s == s[0..2] + "." + s[3..5] + "." + s[6..]
  {
    assert s[0..2] == [s[0], s[1]];
    assert s[3..5] == [s[3], s[4]];
  }

  lemma AsciiPiece(s: string, i: nat, j: nat)
    requires AllAscii(s) && i <= j <= |s|
    ensures AllAscii(s[i..j])
  {
    forall k | 0 <= k < j - i
      ensures s[i..j][k] <= '\U{7F}'
    {
      assert s[i..j][k] == s[i + k];
    }
  }

  /** The discrepancy: 31 February matches the format, datetime rejects it with
      its own message, and that message contains neither "time data" nor
      "unconverted data", so it escapes in place of "Некорректная дата
      рождения". */
  lemma ImpossibleDayEscapes(today: Date)
    ensures ValidateBirthday("31.02.2000", today) == Failure(DayOutOfRange)
  {
    FebruaryThirtyFirst(today);
    FebruaryThirtyFirstText();
  }

  lemma FebruaryThirtyFirst(today: Date)
    ensures ValidateBirthday(FormatDate(Date(2000, 2, 31)), today) == Failure(DayOutOfRange)
  {
    RenderingParses(Date(2000, 2, 31));
  }

  lemma FebruaryThirtyFirstText()
    ensures FormatDate(Date(2000, 2, 31)) == "31.02.2000"
  {
  }

  /** The same escape for year 0, which datetime refuses before looking at the
      day: "01.01.0000" fails with "year 0 is out of range". */
  lemma YearZeroEscapes(today: Date)
    ensures ValidateBirthday("01.01.0000", today) == Failure(YearOutOfRange)
  {
    RenderingParses(Date(0, 1, 1));
    assert FormatDate(Date(0, 1, 1)) == "01.01.0000";
  }

  /** validate_birthday as evidently intended: every well-shaped text that names
      no calendar date is reported as "Некорректная дата рождения". */
  function ValidateBirthdayIntended(s: string, today: Date): (r: Result<string, BirthdayError>)
    ensures r.Success? <==> ValidateBirthday(s, today).Success?
    ensures r.Success? ==> r.value == s
    ensures BirthdayShape(s) && !ParseDate(s).Parsed? ==> r == Failure(BadDate)
    ensures r != Failure(DayOutOfRange) && r != Failure(YearOutOfRange)
  {
    var r := ValidateBirthday(s, today);
    if r == Failure(DayOutOfRange) || r == Failure(YearOutOfRange) then Failure(BadDate) else r
  }

  // ---------------------------------------------------------------------------
  // Enforcement proceeding number
  // ---------------------------------------------------------------------------

  const IpMessage := "Некорректный номер ИП/СД/СВ"

  /** The length of the run of decimal digits s starts with. */
  function LeadingDigits(s: string): (n: nat)
    ensures n <= |s| && AllDigits(s[..n])
    ensures n < |s| ==> !IsDigit(s[n])
  {
    if s != [] && IsDigit(s[0]) then
      var n := 1 + LeadingDigits(s[1..]);
      assert s[..n] == [s[0]] + s[1..][..n - 1];
      ConsDigit(s[0], s[1..][..n - 1]);
      n
    else 0
  }

  lemma ConsDigit(c: char, t: string)
    requires IsDigit(c) && AllDigits(t)
    ensures AllDigits([c] + t)
  {
    assert forall k :: 1 <= k < |t| + 1 ==> ([c] + t)[k] == t[k - 1];
  }

  /** The three kinds of document marker the number ends with. */
  predicate IsKind(k: string) {
    k == "ИП" || k == "СД" || k == "СВ"
  }

  /** What follows the year: `\d{2,3}/\d{2}` or `\d{5}-(?:ИП|СД|СВ)`. */
  predicate IsIpTail(t: string) {
    ((|t| == 5 || |t| == 6) && AllDigits(t[..|t| - 3]) && t[|t| - 3] == '/' && AllDigits(t[|t| - 2..]))
    || (|t| == 8 && AllDigits(t[..5]) && t[5] == '-' && IsKind(t[6..]))
  }

  /** `\d{1,7}/\d{2}/(?:\d{2,3}/\d{2}|\d{5}-(?:ИП|СД|СВ))` matched against the
      whole text. A '/' is not a digit, so the first run of digits is the
      serial number and nothing is left to backtrack. */
  predicate IsIpNumber(s: string) {
    IpShape(s, LeadingDigits(s))
  }

  /** s is a serial of a digits, '/', a two-digit year, '/' and a tail. */
  predicate IpShape(s: string, a: nat) {
    1 <= a <= 7 && a + 4 <= |s| && s[a] == '/' && AllDigits(s[a + 1..a + 3])
    && s[a + 3] == '/' && IsIpTail(s[a + 4..])
  }

  function ValidateIpNumber(s: string): (r: Result<string, string>)
    ensures r.Success? <==> IsIpNumber(s)
    ensures r.Success? ==> r.value == s
    ensures r.Failure? ==> r.error == IpMessage
  {
    if IsIpNumber(s) then Success(s) else Failure(IpMessage)
  }

  /** The parts of a proceeding number, as a reference for the pattern. */
  datatype IpTail = Numbered(unit: string, suffix: string) | Marked(number: string, kind: string)
  datatype IpParts = IpParts(serial: string, year: string, tail: IpTail)

  predicate WellFormedTail(t: IpTail) {
    match t
    case Numbered(u, x) => (|u| == 2 || |u| == 3) && AllDigits(u) && |x| == 2 && AllDigits(x)
    case Marked(n, k) => |n| == 5 && AllDigits(n) && IsKind(k)
  }

  predicate WellFormed(p: IpParts) {
    1 <= |p.serial| <= 7 && AllDigits(p.serial) && |p.year| == 2 && AllDigits(p.year)
    && WellFormedTail(p.tail)
  }

  function RenderTail(t: IpTail): string {
    match t
    case Numbered(u, x) => u + "/" + x
    case Marked(n, k) => n + "-" + k
  }

  function Render(p: IpParts): string {
    p.serial + "/" + p.year + "/" + RenderTail(p.tail)
  }

  lemma {:induction false} LeadingDigitsOf(a: string, b: string)
    requires AllDigits(a) && b != [] && !IsDigit(b[0])
    ensures LeadingDigits(a + b) == |a|
  {
    if a != [] {
      assert (a + b)[1..] == a[1..] + b;
      LeadingDigitsOf(a[1..], b);
    } else {
      assert a + b == b;
    }
  }

  lemma TailAccepted(t: IpTail)
    requires WellFormedTail(t)
    ensures IsIpTail(RenderTail(t))
  {
    var r := RenderTail(t);
    match t
    case Numbered(u, x) =>
      assert r[..|r| - 3] == u && r[|r| - 2..] == x;
    case Marked(n, k) =>
      assert r[..5] == n && r[6..] == k;
  }

  /** Every number assembled from well-formed parts is accepted. */
  lemma RenderedAccepted(p: IpParts)
    requires WellFormed(p)
    ensures ValidateIpNumber(Render(p)) == Success(Render(p))
  {
    RenderedLead(p);
    RenderedShape(p);
  }

  /** The serial of an assembled number is its leading run of digits, and the
      tail follows it after the year. */
  lemma RenderedLead(p: IpParts)
    requires AllDigits(p.serial) && |p.year| == 2
    ensures LeadingDigits(Render(p)) == |p.serial|
    ensures Render(p)[|p.serial| + 4..] == RenderTail(p.tail)
  {
    var s := Render(p);
    var rest := "/" + p.year + "/" + RenderTail(p.tail);
    assert s == p.serial + rest;
    LeadingDigitsOf(p.serial, rest);
  }

  lemma RenderedShape(p: IpParts)
    requires WellFormed(p)
    ensures IpShape(Render(p), |p.serial|)
  {
    var s := Render(p);
    var a := |p.serial|;
    assert s[a + 1..a + 3] == p.year;
    assert s[a + 4..] == RenderTail(p.tail);
    TailAccepted(p.tail);
  }

  /** The parts of an accepted number. */
  function Decompose(s: string): (p: IpParts)
    requires IsIpNumber(s)
    ensures WellFormed(p) && Render(p) == s
  {
    var a := LeadingDigits(s);
    ShapeJoin(s, a);
    IpParts(s[..a], s[a + 1..a + 3], TailOf(s[a + 4..]))
  }

  function TailOf(t: string): (r: IpTail)
    requires IsIpTail(t)
    ensures WellFormedTail(r) && RenderTail(r) == t
  {
    if |t| == 8 then
      assert t == t[..5] + "-" + t[6..];
      Marked(t[..5], t[6..])
    else
      assert t == t[..|t| - 3] + "/" + t[|t| - 2..];
      Numbered(t[..|t| - 3], t[|t| - 2..])
  }

  lemma ShapeJoin(s: string, a: nat)
    requires IpShape(s, a)
    ensures s == s[..a] + "/" + s[a + 1..a + 3] + "/" + s[a + 4..]
  {
  }

  /** A number with the ИП marker and one with a three-digit unit pass. */
  lemma IpNumberExamples()
    ensures ValidateIpNumber("12345/22/77001-ИП").Success?
    ensures ValidateIpNumber("1/21/123/45").Success?
  {
    MarkedExample();
    MarkedExampleText();
    NumberedExample();
    NumberedExampleText();
  }

  lemma MarkedExample()
    ensures ValidateIpNumber(Render(IpParts("12345", "22", Marked("77001", "ИП")))).Success?
  {
    var p := IpParts("12345", "22", Marked("77001", "ИП"));
    assert WellFormed(p) by { MarkedParts(); }
    RenderedAccepted(p);
  }

  lemma MarkedParts()
    ensures WellFormed(IpParts("12345", "22", Marked("77001", "ИП")))
  {
    assert IsKind("ИП");
  }

  lemma NumberedExample()
    ensures ValidateIpNumber(Render(IpParts("1", "21", Numbered("123", "45")))).Success?
  {
    var p := IpParts("1", "21", Numbered("123", "45"));
    assert WellFormed(p) by { NumberedParts(); }
    RenderedAccepted(p);
  }

  lemma NumberedParts()
    ensures WellFormed(IpParts("1", "21", Numbered("123", "45")))
  {
    assert AllDigits("123");
  }

  lemma MarkedExampleText()
    ensures Render(IpParts("12345", "22", Marked("77001", "ИП"))) == "12345/22/77001-ИП"
  {
  }

  lemma NumberedExampleText()
    ensures Render(IpParts("1", "21", Numbered("123", "45"))) == "1/21/123/45"
  {
  }

  /** An eight-digit serial is one digit too many. */
  lemma LongSerialRejected()
    ensures ValidateIpNumber("12345678/22/77001-ИП") == Failure(IpMessage)
  {
    var s := "12345678/22/77001-ИП";
    LeadingDigitsOf(s[..8], s[8..]);
    assert s == s[..8] + s[8..];
  }

  /** A number ending in five digits and a two-letter marker is accepted
      exactly when the marker is ИП, СД or СВ. */
  lemma MarkerDecides(serial: string, year: string, number: string, kind: string)
    requires 1 <= |serial| <= 7 && AllDigits(serial) && |year| == 2 && AllDigits(year)
    requires |number| == 5 && AllDigits(number) && |kind| == 2
    ensures IsIpNumber(serial + "/" + year + "/" + number + "-" + kind) <==> IsKind(kind)
  {
    var p := IpParts(serial, year, Marked(number, kind));
    assert Render(p) == serial + "/" + year + "/" + number + "-" + kind;
    MarkedTail(number, kind);
    if IsKind(kind) {
      RenderedAccepted(p);
    } else {
      RenderedLead(p);
    }
  }

  lemma MarkedTail(number: string, kind: string)
    requires |number| == 5 && AllDigits(number) && |kind| == 2
    ensures IsIpTail(number + "-" + kind) <==> IsKind(kind)
  {
    var t := number + "-" + kind;
    assert t[..5] == number && t[6..] == kind;
  }

  /** A person to search for; the birthday has passed ValidateBirthday. */
  datatype Person = Person(lastName: string, firstName: string, patronymic: Option<string>,
                           birthday: string)

  // ---------------------------------------------------------------------------
  // Results
  // ---------------------------------------------------------------------------

  /** One enforcement proceeding as the domain reports it. */
  datatype DebtorCase = DebtorCase(
    region: Option<string>,
    debtor: string,
    ip: string,
    doc: string,
    endReason: Option<string>,
    debt: string,
    office: string,
    bailiff: string)

  /** `DebtorCase(**row)`: each key of the parser's row fills the field of the
      same name; the parser always supplies an end reason. */
  function ToCase(row: Parser.CaseRow): DebtorCase {
    DebtorCase(row.region, row.debtor, row.ip, row.doc, Some(row.endReason),
               row.debt, row.office, row.bailiff)
  }

  /** The row a case came from. */
  function AsRow(c: DebtorCase): Parser.CaseRow {
    Parser.CaseRow(c.region, c.debtor, c.ip, c.doc, c.endReason.GetOr(""),
                   c.debt, c.office, c.bailiff)
  }

  /** DebtorCaseList.from_rows: one case per row, in order, carrying the row's
      values unchanged. */
  function FromRows(rows: seq<Parser.CaseRow>): (items: seq<DebtorCase>)
    ensures |items| == |rows|
    ensures forall i :: 0 <= i < |rows| ==> AsRow(items[i]) == rows[i]
    ensures forall i :: 0 <= i < |rows| ==> items[i].endReason.Some?
  {
    seq(|rows|, i requires 0 <= i < |rows| => ToCase(rows[i]))
  }
}
