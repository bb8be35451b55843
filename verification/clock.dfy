/** The timestamp of a log line. The parser hands the captured text
    `MM/DD/YYYY - HH:MM:SS` to Go's `time.Parse` with the layout
    `01/02/2006 - 15:04:05`; the result is a UTC instant. Only the field-range
    validation of `time.Parse` is modelled: an instant is kept as its six
    calendar fields. */
module Clock {
  import opened Base
  import opened Text

  /** A UTC calendar instant, field by field. */
  datatype DateTime = DateTime(year: int, month: int, day: int, hour: int, minute: int, second: int)

  /** The field `time.Parse` names in its "out of range" error. */
  datatype TimeField = Month | Day | Hour | Minute | Second

  /** The errors `time.Parse` can report for this layout: a field out of range,
      or text that does not have the layout's shape at all. `value` is the
      text that was parsed. */
  datatype TimeError =
    | OutOfRange(value: string, field: TimeField)
    | LayoutMismatch(value: string)

  predicate IsLeap(year: int) {
    year % 4 == 0 && (year % 100 != 0 || year % 400 == 0)
  }

  function DaysIn(month: int, year: int): int
    requires 1 <= month <= 12
  {
    if month == 2 then (if IsLeap(year) then 29 else 28)
    else if month == 4 || month == 6 || month == 9 || month == 11 then 30
    else 31
  }

  /** A real instant of the proleptic Gregorian calendar. */
  predicate ValidDateTime(t: DateTime) {
    && 1 <= t.month <= 12
    && 1 <= t.day <= DaysIn(t.month, t.year)
    && 0 <= t.hour < 24
    && 0 <= t.minute < 60
    && 0 <= t.second < 60
  }

  /** A year the four-digit layout field can spell. */
  predicate FourDigitYear(t: DateTime) {
    0 <= t.year <= 9999
  }

  /** Text of the shape `\d{2}/\d{2}/\d{4} - \d{2}:\d{2}:\d{2}`: what the log
      line pattern captures as the timestamp. */
  predicate IsStampShape(s: string) {
    && |s| == 21
    && AllDigits(s[0..2]) && s[2] == '/'
    && AllDigits(s[3..5]) && s[5] == '/'
    && AllDigits(s[6..10])
    && s[10] == ' ' && s[11] == '-' && s[12] == ' '
    && AllDigits(s[13..15]) && s[15] == ':'
    && AllDigits(s[16..18]) && s[18] == ':'
    && AllDigits(s[19..21])
  }

  /** The calendar fields written in a timestamp-shaped text, before any
      range check. */
  function StampFields(s: string): DateTime
    requires IsStampShape(s)
  {
    DateTime(DecimalValue(s[6..10]), DecimalValue(s[0..2]), DecimalValue(s[3..5]),
             DecimalValue(s[13..15]), DecimalValue(s[16..18]), DecimalValue(s[19..21]))
  }

  /** `time.Parse("01/02/2006 - 15:04:05", s)` in UTC. The layout is walked
      left to right and the first out-of-range field wins (month, then hour,
      minute, second); the day is checked against its month and year only
      after the whole text has been read. */
  function ParseStamp(s: string): (r: Result<DateTime, TimeError>)
    ensures r.Success? <==> IsStampShape(s) && ValidDateTime(StampFields(s))
    ensures r.Success? ==> r.value == StampFields(s) && FourDigitYear(r.value)
    ensures !IsStampShape(s) ==> r == Failure(LayoutMismatch(s))
    ensures r.Failure? && r.error.OutOfRange? ==> r.error.value == s
    ensures IsStampShape(s) && r.Failure? ==> r.error.OutOfRange?
  {
    if !IsStampShape(s) then Failure(LayoutMismatch(s))
    else
      var month := DecimalValue(s[0..2]);
      var day := DecimalValue(s[3..5]);
      var year := DecimalValue(s[6..10]);
      var hour := DecimalValue(s[13..15]);
      var minute := DecimalValue(s[16..18]);
      var second := DecimalValue(s[19..21]);
      if month < 1 || 12 < month then Failure(OutOfRange(s, Month))
      else if 24 <= hour then Failure(OutOfRange(s, Hour))
      else if 60 <= minute then Failure(OutOfRange(s, Minute))
      else if 60 <= second then Failure(OutOfRange(s, Second))
      else if day < 1 || day > DaysIn(month, year) then Failure(OutOfRange(s, Day))
      else
        assert year < 10000 by { FourDigitsBound(s[6..10]); }
        Success(DateTime(year, month, day, hour, minute, second))
  }

  lemma FourDigitsBound(s: string)
    requires |s| == 4 && AllDigits(s)
    ensures DecimalValue(s) < 10000
  {
    DecimalValueBound(s);
    assert Pow10(4) == 10000;
  }

  /** Two digits with a leading zero, the layout's `01`, `02`, `15`, `04`, `05`. */
  function Pad2(n: int): (s: string)
    requires 0 <= n < 100
    ensures |s| == 2 && AllDigits(s) && DecimalValue(s) == n
  {
    var s := [DigitChar(n / 10), DigitChar(n % 10)];
    assert s[..1] == [DigitChar(n / 10)] && s[..1][..0] == [];
    assert DecimalValue(s[..1]) == n / 10;
    assert (n / 10) * 10 + n % 10 == n;
    s
  }

  /** Four digits with leading zeros, the layout's `2006`. */
  function Pad4(n: int): (s: string)
    requires 0 <= n < 10000
    ensures |s| == 4 && AllDigits(s) && DecimalValue(s) == n
  {
    var s := Pad2(n / 100) + Pad2(n % 100);
    DecimalValueAppend(Pad2(n / 100), Pad2(n % 100));
    assert Pow10(2) == 100;
    s
  }

  /** The timestamp text of an instant, as the server writes it. */
  function FormatStamp(t: DateTime): (s: string)
    requires ValidDateTime(t) && FourDigitYear(t)
    ensures IsStampShape(s)
  {
    Pad2(t.month) + "/" + Pad2(t.day) + "/" + Pad4(t.year) + " - " +
    Pad2(t.hour) + ":" + Pad2(t.minute) + ":" + Pad2(t.second)
  }

  /** Parsing the text of a valid instant gives that instant back. */
  lemma {:induction false} ParseFormatStamp(t: DateTime)
    requires ValidDateTime(t) && FourDigitYear(t)
    ensures ParseStamp(FormatStamp(t)) == Success(t)
  {
    var s := FormatStamp(t);
    assert s[0..2] == Pad2(t.month);
    assert s[3..5] == Pad2(t.day);
    assert s[6..10] == Pad4(t.year);
    assert s[13..15] == Pad2(t.hour);
    assert s[16..18] == Pad2(t.minute);
    assert s[19..21] == Pad2(t.second);
  }

  /** A successfully parsed text is exactly the text of its instant: parsing
      loses nothing and accepts no second spelling of the same instant. */
  lemma {:induction false} FormatParseStamp(s: string)
    requires ParseStamp(s).Success?
    ensures FormatStamp(ParseStamp(s).value) == s
  {
    var t := ParseStamp(s).value;
    var f := FormatStamp(t);
    assert f[0..2] == Pad2(t.month) && f[3..5] == Pad2(t.day) && f[6..10] == Pad4(t.year);
    assert f[13..15] == Pad2(t.hour) && f[16..18] == Pad2(t.minute) && f[19..21] == Pad2(t.second);
    DecimalValueInjective(s[0..2], f[0..2]);
    DecimalValueInjective(s[3..5], f[3..5]);
    DecimalValueInjective(s[13..15], f[13..15]);
    DecimalValueInjective(s[16..18], f[16..18]);
    DecimalValueInjective(s[19..21], f[19..21]);
    DecimalValueInjective(s[6..10], f[6..10]);
    SameFieldsSameStamp(s, f);
  }

  /** Two timestamp-shaped texts with the same six digit fields are equal:
      the separators are fixed by the shape. */
  lemma SameFieldsSameStamp(s: string, f: string)
    requires IsStampShape(s) && IsStampShape(f)
    requires s[0..2] == f[0..2] && s[3..5] == f[3..5] && s[6..10] == f[6..10]
    requires s[13..15] == f[13..15] && s[16..18] == f[16..18] && s[19..21] == f[19..21]
    ensures s == f
  {
    forall i | 0 <= i < 21 ensures f[i] == s[i] {
      if i < 2 { assert f[i] == f[0..2][i] && s[i] == s[0..2][i]; }
      else if 3 <= i < 5 { assert f[i] == f[3..5][i - 3] && s[i] == s[3..5][i - 3]; }
      else if 6 <= i < 10 { assert f[i] == f[6..10][i - 6] && s[i] == s[6..10][i - 6]; }
      else if 13 <= i < 15 { assert f[i] == f[13..15][i - 13] && s[i] == s[13..15][i - 13]; }
      else if 16 <= i < 18 { assert f[i] == f[16..18][i - 16] && s[i] == s[16..18][i - 16]; }
      else if 19 <= i < 21 { assert f[i] == f[19..21][i - 19] && s[i] == s[19..21][i - 19]; }
    }
  }
}
