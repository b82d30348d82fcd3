/**
 * The schedule time the create-task handler of main.py reads with
 * `datetime.strptime(text, "%Y-%m-%d %H:%M:%S")`: a four-digit year, then
 * month, day, hour, minute and second of two digits each, separated by
 * `-`, one space and `:`. A calendar date or time of day that does not
 * exist is rejected, as the `datetime` constructor rejects it.
 */
module DateTimes {
  import opened Common

  datatype DateTime = DateTime(year: nat, month: nat, day: nat, hour: nat, minute: nat, second: nat)

  /** Leap years of the proleptic Gregorian calendar. */
  predicate IsLeapYear(y: nat)
  {
    y % 4 == 0 && (y % 100 != 0 || y % 400 == 0)
  }

  function DaysInMonth(y: nat, m: nat): (n: nat)
    requires 1 <= m <= 12
    ensures 28 <= n <= 31
  {
    if m == 2 then (if IsLeapYear(y) then 29 else 28)
    else if m == 4 || m == 6 || m == 9 || m == 11 then 30
    else 31
  }

  /** The values `datetime` accepts: years 1 to 9999 and a real date and time of day. */
  predicate Valid(d: DateTime)
  {
    1 <= d.year <= 9999 && 1 <= d.month <= 12 && 1 <= d.day <= DaysInMonth(d.year, d.month)
    && d.hour < 24 && d.minute < 60 && d.second < 60
  }

  predicate IsDigit(c: char)
  {
    '0' <= c <= '9'
  }

  predicate AllDigits(s: string)
  {
    forall k :: 0 <= k < |s| ==> IsDigit(s[k])
  }

  /** The value of a decimal digit. */
  function Digit(c: char): (d: nat)
    requires IsDigit(c)
    ensures d < 10 && DigitChar(d) == c
  {
    c as int - '0' as int
  }

  /** The number two digits spell. */
  function ReadTwo(s: string): (n: nat)
    requires |s| == 2 && AllDigits(s)
    ensures n < 100
  {
    Digit(s[0]) * 10 + Digit(s[1])
  }

  /** The number four digits spell. */
  function ReadFour(s: string): (n: nat)
    requires |s| == 4 && AllDigits(s)
    ensures n < 10000
  {
    Digit(s[0]) * 1000 + Digit(s[1]) * 100 + Digit(s[2]) * 10 + Digit(s[3])
  }

  /** `n` below 100 written with two digits, zero-padded. */
  function PadTwo(n: nat): (s: string)
    requires n < 100
    ensures |s| == 2 && AllDigits(s)
  {
    [DigitChar(n / 10), DigitChar(n % 10)]
  }

  /** `n` below 10000 written with four digits, zero-padded. */
  function PadFour(n: nat): (s: string)
    requires n < 10000
    ensures |s| == 4 && AllDigits(s)
  {
    [DigitChar(n / 1000), DigitChar(n / 100 % 10), DigitChar(n / 10 % 10), DigitChar(n % 10)]
  }

  lemma DigitOfChar(d: nat)
    requires d < 10
    ensures Digit(DigitChar(d)) == d
  {
  }

  /** Reading back a padded number gives the number. */
  lemma ReadPadTwo(n: nat)
    requires n < 100
    ensures ReadTwo(PadTwo(n)) == n
  {
    DigitOfChar(n / 10);
    DigitOfChar(n % 10);
  }

  lemma ReadPadFour(n: nat)
    requires n < 10000
    ensures ReadFour(PadFour(n)) == n
  {
    var p := PadFour(n);
    DigitOfChar(n / 1000);
    DigitOfChar(n / 100 % 10);
    DigitOfChar(n / 10 % 10);
    DigitOfChar(n % 10);
    assert ReadFour(p) == n / 1000 * 1000 + n / 100 % 10 * 100 + n / 10 % 10 * 10 + n % 10;
    DecimalDigits(n);
  }

  /** A number below 10000 is the sum of its four decimal digits by place. */
  lemma DecimalDigits(n: nat)
    requires n < 10000
    ensures n == n / 1000 * 1000 + n / 100 % 10 * 100 + n / 10 % 10 * 10 + n % 10
  {
    var t := n / 10;
    var h := n / 100;
    assert n == 10 * t + n % 10;
    assert n == 100 * h + n % 100;
    assert t == 10 * h + t % 10;
    assert t % 10 == n / 10 % 10;
    assert h == 10 * (n / 1000) + h % 10;
  }

  /** Padding the number digits spell gives the digits back. */
  lemma PadReadTwo(s: string)
    requires |s| == 2 && AllDigits(s)
    ensures PadTwo(ReadTwo(s)) == s
  {
    var n := ReadTwo(s);
    assert n / 10 == Digit(s[0]) && n % 10 == Digit(s[1]);
  }

  lemma PadReadFour(s: string)
    requires |s| == 4 && AllDigits(s)
    ensures PadFour(ReadFour(s)) == s
  {
    var a, b, c, d := Digit(s[0]), Digit(s[1]), Digit(s[2]), Digit(s[3]);
    var n := ReadFour(s);
    assert n / 1000 == a;
    assert n / 100 == a * 10 + b;
    assert n / 100 % 10 == b;
    assert n / 10 == a * 100 + b * 10 + c;
    assert n / 10 % 10 == c;
    assert n % 10 == d;
  }

  /** Every field fits its width of digits. */
  predicate Fits(d: DateTime)
  {
    d.year < 10000 && d.month < 100 && d.day < 100 && d.hour < 100 && d.minute < 100 && d.second < 100
  }

  /** The text of a date and time in the format `"%Y-%m-%d %H:%M:%S"`, every field zero-padded. */
  function Format(d: DateTime): (s: string)
    requires Fits(d)
    ensures |s| == 19
  {
    PadFour(d.year) + "-" + PadTwo(d.month) + "-" + PadTwo(d.day) + " "
    + PadTwo(d.hour) + ":" + PadTwo(d.minute) + ":" + PadTwo(d.second)
  }

  /** The text has the shape of the format: digits and separators in their places. */
  predicate Shaped(s: string)
  {
    |s| == 19 && s[4] == '-' && s[7] == '-' && s[10] == ' ' && s[13] == ':' && s[16] == ':'
    && AllDigits(s[..4]) && AllDigits(s[5..7]) && AllDigits(s[8..10])
    && AllDigits(s[11..13]) && AllDigits(s[14..16]) && AllDigits(s[17..])
  }

  /** The fields a shaped text spells, read without any range check. */
  function Fields(s: string): (d: DateTime)
    requires Shaped(s)
    ensures Fits(d)
  {
    DateTime(ReadFour(s[..4]), ReadTwo(s[5..7]), ReadTwo(s[8..10]),
             ReadTwo(s[11..13]), ReadTwo(s[14..16]), ReadTwo(s[17..]))
  }

  /**
   * `datetime.strptime(s, "%Y-%m-%d %H:%M:%S")`: the date and time the text
   * spells, or `None` where Python raises ValueError.
   */
  function Parse(s: string): (r: Option<DateTime>)
    ensures r.Some? ==> Valid(r.value) && Fits(r.value) && Format(r.value) == s
    ensures r.None? ==> !Shaped(s) || !Valid(Fields(s))
  {
    if Shaped(s) && Valid(Fields(s)) then
      FormatFields(s);
      Some(Fields(s))
    else None
  }

  /** Formatting the fields of a shaped text gives the text back. */
  lemma FormatFields(s: string)
    requires Shaped(s)
    ensures Format(Fields(s)) == s
  {
    PadReadFour(s[..4]);
    PadReadTwo(s[5..7]);
    PadReadTwo(s[8..10]);
    PadReadTwo(s[11..13]);
    PadReadTwo(s[14..16]);
    PadReadTwo(s[17..]);
    assert s == s[..4] + "-" + s[5..7] + "-" + s[8..10] + " " + s[11..13] + ":" + s[14..16] + ":" + s[17..];
  }

  /** The format is shaped, and its fields are the ones formatted. */
  lemma FieldsFormat(d: DateTime)
    requires Fits(d)
    ensures Shaped(Format(d)) && Fields(Format(d)) == d
  {
    var s := Format(d);
    assert s[..4] == PadFour(d.year);
    assert s[5..7] == PadTwo(d.month);
    assert s[8..10] == PadTwo(d.day);
    assert s[11..13] == PadTwo(d.hour);
    assert s[14..16] == PadTwo(d.minute);
    assert s[17..] == PadTwo(d.second);
    ReadPadFour(d.year);
    ReadPadTwo(d.month);
    ReadPadTwo(d.day);
    ReadPadTwo(d.hour);
    ReadPadTwo(d.minute);
    ReadPadTwo(d.second);
  }

  /** Every valid date and time survives formatting and parsing. */
  lemma ParseFormat(d: DateTime)
    requires Valid(d)
    ensures Parse(Format(d)) == Some(d)
  {
    FieldsFormat(d);
  }

  /** The text of fields that fit but do not make a real date and time does not parse. */
  lemma RejectsInvalid(d: DateTime)
    requires Fits(d) && !Valid(d)
    ensures Parse(Format(d)) == None
  {
    FieldsFormat(d);
  }

  /** Distinct dates and times whose fields fit have distinct texts. */
  lemma FormatInjective(d: DateTime, e: DateTime)
    requires Fits(d) && Fits(e) && Format(d) == Format(e)
    ensures d == e
  {
    FieldsFormat(d);
    FieldsFormat(e);
  }

  /** The schedule time of the handler's test: `"2022-01-01 12:00:00"` is noon on 1 January 2022. */
  lemma ParseExample(s: string)
    requires s == "2022-01-01 12:00:00"
    ensures Parse(s) == Some(DateTime(2022, 1, 1, 12, 0, 0))
  {
    assert s[..4] == "2022" && s[5..7] == "01" && s[8..10] == "01";
    assert s[11..13] == "12" && s[14..16] == "00" && s[17..] == "00";
    assert ReadFour("2022") == 2022 && ReadTwo("01") == 1 && ReadTwo("12") == 12 && ReadTwo("00") == 0;
    assert Shaped(s);
  }

  /** A date that does not exist, such as 30 February, is rejected. */
  lemma RejectsMissingDay(s: string)
    requires s == "2023-02-30 00:00:00"
    ensures Parse(s) == None
  {
    assert s[..4] == "2023" && s[5..7] == "02" && s[8..10] == "30";
    assert s[11..13] == "00" && s[14..16] == "00" && s[17..] == "00";
    assert ReadFour("2023") == 2023 && ReadTwo("02") == 2 && ReadTwo("30") == 30 && ReadTwo("00") == 0;
    assert Shaped(s);
  }
}
