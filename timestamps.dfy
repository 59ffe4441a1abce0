/**
 * Calendar values and the fixed-width text forms the scraper reads and writes:
 * `YYYY-MM-DDTHH:MM:SSZ` timestamps (`%Y-%m-%dT%H:%M:%SZ`), `YYYY-MM-DD` dates
 * (`date.isoformat()`) and `HH:MM` clock times (`%H:%M`).
 */
module Timestamps {
  import opened Common
  import opened Numbers

  datatype Date = Date(year: nat, month: nat, day: nat)

  datatype DateTime = DateTime(date: Date, hour: nat, minute: nat, second: nat)

  /** A time of day to the minute, as `strptime(..., "%H:%M").time()` yields. */
  datatype Clock = Clock(hour: nat, minute: nat)

  predicate IsLeapYear(y: nat)
  {
    y % 4 == 0 && (y % 100 != 0 || y % 400 == 0)
  }

  function DaysInMonth(y: nat, m: nat): (n: nat)
    requires 1 <= m <= 12
    ensures 28 <= n <= 31
    ensures n == 29 <==> m == 2 && IsLeapYear(y)
  {
    if m == 2 then (if IsLeapYear(y) then 29 else 28)
    else if m == 4 || m == 6 || m == 9 || m == 11 then 30
    else 31
  }

  /** The dates `datetime` can hold. */
  predicate ValidDate(d: Date)
  {
    1 <= d.year <= 9999 && 1 <= d.month <= 12 && 1 <= d.day <= DaysInMonth(d.year, d.month)
  }

  predicate ValidDateTime(t: DateTime)
  {
    ValidDate(t.date) && t.hour < 24 && t.minute < 60 && t.second < 60
  }

  predicate ValidClock(c: Clock)
  {
    c.hour < 24 && c.minute < 60
  }

  // ---------------------------------------------------------------------------------------
  // Fixed-width digit fields
  // ---------------------------------------------------------------------------------------

  function DigitChar(n: nat): (c: char)
    requires n < 10
    ensures IsDigit(c) && DigitValue(c) == n
  {
    ('0' as int + n) as char
  }

  /** `n` written with exactly `width` digits, zero-padded on the left. */
  function Pad(n: nat, width: nat): (r: string)
    ensures |r| == width
    decreases width
  {
    if width == 0 then [] else Pad(n / 10, width - 1) + [DigitChar(n % 10)]
  }

  lemma {:induction false} PadDigits(n: nat, width: nat)
    ensures AllDigits(Pad(n, width))
    decreases width
  {
    if width > 0 {
      PadDigits(n / 10, width - 1);
      var r := Pad(n, width);
      assert forall i :: 0 <= i < width - 1 ==> r[i] == Pad(n / 10, width - 1)[i];
    }
  }

  lemma {:induction false} DigitsValueSnoc(x: string, c: char)
    ensures DigitsValue(x + [c]) == 10 * DigitsValue(x) + DigitValue(c)
    decreases |x|
  {
    if x == [] {
      assert x + [c] == [c];
      assert [c][1..] == [];
    } else {
      assert (x + [c])[1..] == x[1..] + [c];
      DigitsValueSnoc(x[1..], c);
      var p := Pow10(|x| - 1);
      assert Pow10(|x|) == 10 * p;
      calc {
        DigitsValue(x + [c]);
        DigitValue(x[0]) * Pow10(|x|) + DigitsValue(x[1..] + [c]);
        DigitValue(x[0]) * (10 * p) + 10 * DigitsValue(x[1..]) + DigitValue(c);
        10 * (DigitValue(x[0]) * p + DigitsValue(x[1..])) + DigitValue(c);
      }
    }
  }

  /** A padded field reads back as its number when the number fits the width. */
  lemma {:induction false} PadValue(n: nat, width: nat)
    requires n < Pow10(width)
    ensures DigitsValue(Pad(n, width)) == n
    decreases width
  {
    if width == 0 {
    } else {
      assert n / 10 < Pow10(width - 1);
      PadValue(n / 10, width - 1);
      DigitsValueSnoc(Pad(n / 10, width - 1), DigitChar(n % 10));
    }
  }

  /** A field of digits is the padding of its own value. */
  lemma {:induction false} PadOfDigits(ds: string)
    requires AllDigits(ds)
    ensures Pad(DigitsValue(ds), |ds|) == ds
    decreases |ds|
  {
    if ds != [] {
      var x := ds[..|ds| - 1];
      var c := ds[|ds| - 1];
      assert ds == x + [c];
      assert AllDigits(x) by {
        forall i | 0 <= i < |x| ensures IsDigit(x[i]) { assert x[i] == ds[i]; }
      }
      DigitsValueSnoc(x, c);
      var n := DigitsValue(ds);
      assert n / 10 == DigitsValue(x) && n % 10 == DigitValue(c);
      PadOfDigits(x);
      assert DigitChar(DigitValue(c)) == c;
    }
  }

  // ---------------------------------------------------------------------------------------
  // Dates: `YYYY-MM-DD`
  // ---------------------------------------------------------------------------------------

  /** `date.isoformat()` */
  function IsoDate(d: Date): (r: string)
    ensures |r| == 10
  {
    Pad(d.year, 4) + "-" + Pad(d.month, 2) + "-" + Pad(d.day, 2)
  }

  /** Reads `YYYY-MM-DD`; None when a field is not digits or the date does not exist. */
  function ParseDate(s: string): (r: Option<Date>)
    ensures r.Some? ==> ValidDate(r.value)
  {
    if |s| == 10 && s[4] == '-' && s[7] == '-'
       && AllDigits(s[..4]) && AllDigits(s[5..7]) && AllDigits(s[8..]) then
      var d := Date(DigitsValue(s[..4]), DigitsValue(s[5..7]), DigitsValue(s[8..]));
      if ValidDate(d) then Some(d) else None
    else None
  }

  lemma IsoDateFields(d: Date)
    ensures var s := IsoDate(d);
      s[..4] == Pad(d.year, 4) && s[4] == '-' && s[5..7] == Pad(d.month, 2) && s[7] == '-'
      && s[8..] == Pad(d.day, 2)
  {
  }

  /** Reading back a written date gives the date. */
  lemma ParseIsoDate(d: Date)
    requires ValidDate(d)
    ensures ParseDate(IsoDate(d)) == Some(d)
  {
    IsoDateFields(d);
    PadDigits(d.year, 4);
    PadDigits(d.month, 2);
    PadDigits(d.day, 2);
    PadValue(d.year, 4);
    PadValue(d.month, 2);
    PadValue(d.day, 2);
  }

  /** Writing a date that was read gives back the text read. */
  lemma IsoOfParsedDate(s: string)
    requires ParseDate(s).Some?
    ensures IsoDate(ParseDate(s).value) == s
  {
    PadOfDigits(s[..4]);
    PadOfDigits(s[5..7]);
    PadOfDigits(s[8..]);
    var r := IsoDate(ParseDate(s).value);
    IsoDateFields(ParseDate(s).value);
    assert s == s[..4] + [s[4]] + s[5..7] + [s[7]] + s[8..];
    assert r == r[..4] + [r[4]] + r[5..7] + [r[7]] + r[8..];
  }

  // ---------------------------------------------------------------------------------------
  // Timestamps: `YYYY-MM-DDTHH:MM:SSZ`
  // ---------------------------------------------------------------------------------------

  function FormatTimestamp(t: DateTime): (r: string)
    ensures |r| == 20
  {
    IsoDate(t.date) + "T" + Pad(t.hour, 2) + ":" + Pad(t.minute, 2) + ":" + Pad(t.second, 2) + "Z"
  }

  /** `datetime.strptime(s, "%Y-%m-%dT%H:%M:%SZ")` on fixed-width input; None where it raises. */
  function ParseTimestamp(s: string): (r: Option<DateTime>)
    ensures r.Some? ==> ValidDateTime(r.value)
  {
    if |s| == 20 && s[10] == 'T' && s[13] == ':' && s[16] == ':' && s[19] == 'Z'
       && AllDigits(s[11..13]) && AllDigits(s[14..16]) && AllDigits(s[17..19]) then
      match ParseDate(s[..10])
      case None => None
      case Some(d) =>
        var t := DateTime(d, DigitsValue(s[11..13]), DigitsValue(s[14..16]), DigitsValue(s[17..19]));
        if ValidDateTime(t) then Some(t) else None
    else None
  }

  lemma TimestampFields(t: DateTime)
    ensures var s := FormatTimestamp(t);
      s[..10] == IsoDate(t.date) && s[10] == 'T' && s[11..13] == Pad(t.hour, 2) && s[13] == ':'
      && s[14..16] == Pad(t.minute, 2) && s[16] == ':' && s[17..19] == Pad(t.second, 2) && s[19] == 'Z'
  {
  }

  /** Reading back a written timestamp gives the timestamp. */
  lemma ParseFormatted(t: DateTime)
    requires ValidDateTime(t)
    ensures ParseTimestamp(FormatTimestamp(t)) == Some(t)
  {
    TimestampFields(t);
    ParseIsoDate(t.date);
    PadDigits(t.hour, 2);
    PadDigits(t.minute, 2);
    PadDigits(t.second, 2);
    PadValue(t.hour, 2);
    PadValue(t.minute, 2);
    PadValue(t.second, 2);
  }

  /** Writing a timestamp that was read gives back the text read. */
  lemma FormatOfParsed(s: string)
    requires ParseTimestamp(s).Some?
    ensures FormatTimestamp(ParseTimestamp(s).value) == s
  {
    var t := ParseTimestamp(s).value;
    IsoOfParsedDate(s[..10]);
    PadOfDigits(s[11..13]);
    PadOfDigits(s[14..16]);
    PadOfDigits(s[17..19]);
    var r := FormatTimestamp(t);
    TimestampFields(t);
    assert s == s[..10] + [s[10]] + s[11..13] + [s[13]] + s[14..16] + [s[16]] + s[17..19] + [s[19]];
    assert r == r[..10] + [r[10]] + r[11..13] + [r[13]] + r[14..16] + [r[16]] + r[17..19] + [r[19]];
  }

  /** `a > b` on datetimes: field by field, most significant first. */
  predicate Later(a: DateTime, b: DateTime)
  {
    if a.date.year != b.date.year then a.date.year > b.date.year
    else if a.date.month != b.date.month then a.date.month > b.date.month
    else if a.date.day != b.date.day then a.date.day > b.date.day
    else if a.hour != b.hour then a.hour > b.hour
    else if a.minute != b.minute then a.minute > b.minute
    else a.second > b.second
  }

  /** `Later` is a strict total order. */
  lemma LaterIsStrictTotal(a: DateTime, b: DateTime, c: DateTime)
    ensures !Later(a, a)
    ensures Later(a, b) && Later(b, c) ==> Later(a, c)
    ensures a != b ==> Later(a, b) || Later(b, a)
    ensures !(Later(a, b) && Later(b, a))
  {
  }

  // ---------------------------------------------------------------------------------------
  // Clock times: `HH:MM`
  // ---------------------------------------------------------------------------------------

  function FormatClock(c: Clock): (r: string)
    ensures |r| == 5
  {
    Pad(c.hour, 2) + ":" + Pad(c.minute, 2)
  }

  /** `datetime.strptime(s, "%H:%M").time()` on fixed-width input; None where it raises. */
  function ParseClock(s: string): (r: Option<Clock>)
    ensures r.Some? ==> ValidClock(r.value)
  {
    if |s| == 5 && s[2] == ':' && AllDigits(s[..2]) && AllDigits(s[3..]) then
      var c := Clock(DigitsValue(s[..2]), DigitsValue(s[3..]));
      if ValidClock(c) then Some(c) else None
    else None
  }

  lemma ParseFormattedClock(c: Clock)
    requires ValidClock(c)
    ensures ParseClock(FormatClock(c)) == Some(c)
  {
    var s := FormatClock(c);
    assert s[..2] == Pad(c.hour, 2) && s[3..] == Pad(c.minute, 2);
    PadDigits(c.hour, 2);
    PadDigits(c.minute, 2);
    PadValue(c.hour, 2);
    PadValue(c.minute, 2);
  }

  lemma FormatOfParsedClock(s: string)
    requires ParseClock(s).Some?
    ensures FormatClock(ParseClock(s).value) == s
  {
    PadOfDigits(s[..2]);
    PadOfDigits(s[3..]);
    assert s == s[..2] + [s[2]] + s[3..];
  }
}
