/** The slice of JavaScript's `Date` and of date-fns `format` that the
    historical query uses. A date is either a local date-time record or the
    invalid date (a NaN time value); time zones and calendar arithmetic are
    not modelled, so `setHours` with in-range arguments is a field update. */
module Dates {

  import opened Wrappers
  import opened Text

  datatype DateTime = DateTime(
    year: nat,
    month: nat,
    day: nat,
    hours: nat,
    minutes: nat,
    seconds: nat,
    milliseconds: nat)

  /** A `Date` object's value: a local date-time, or the invalid date. */
  datatype DateValue = Invalid | At(dt: DateTime)

  /** Fields within the ranges a calendar date-time has, with a four-digit year. */
  predicate InRange(dt: DateTime) {
    && dt.year <= 9999
    && 1 <= dt.month <= 12
    && 1 <= dt.day <= 31
    && dt.hours <= 23
    && dt.minutes <= 59
    && dt.seconds <= 59
    && dt.milliseconds <= 999
  }

  /** The message date-fns throws when asked to format an invalid date. */
  const InvalidTimeValue: string := "Invalid time value"

  /** The date part of the pattern: `yyyy-MM-dd`. */
  function DatePart(dt: DateTime): string {
    Padded(dt.year, 4) + "-" + Padded(dt.month, 2) + "-" + Padded(dt.day, 2)
  }

  /** The time part of the pattern: `HH:mm:ss`; milliseconds are not written. */
  function TimePart(dt: DateTime): string {
    Padded(dt.hours, 2) + ":" + Padded(dt.minutes, 2) + ":" + Padded(dt.seconds, 2)
  }

  /** `format(date, "yyyy-MM-dd'T'HH:mm:ss")`, which throws on an invalid date. */
  function FormatLocal(d: DateValue): (r: Result<string, string>)
    ensures r.Err? <==> d.Invalid?
    ensures r.Err? ==> r.error == InvalidTimeValue
  {
    match d
    case Invalid => Err(InvalidTimeValue)
    case At(dt) => Ok(DatePart(dt) + "T" + TimePart(dt))
  }

  /** `setHours(h, m, s, ms)` with in-range arguments: the date stays, the time
      of day is replaced; an invalid date stays invalid. */
  function SetHours(d: DateValue, h: nat, m: nat, s: nat, ms: nat): (r: DateValue)
    requires h <= 23 && m <= 59 && s <= 59 && ms <= 999
    ensures r.Invalid? <==> d.Invalid?
    ensures r.At? ==> r.dt.year == d.dt.year && r.dt.month == d.dt.month && r.dt.day == d.dt.day
    ensures r.At? ==> r.dt.hours == h && r.dt.minutes == m && r.dt.seconds == s && r.dt.milliseconds == ms
  {
    match d
    case Invalid => Invalid
    case At(dt) => At(dt.(hours := h, minutes := m, seconds := s, milliseconds := ms))
  }

  /** The last millisecond of the day: `setHours(23, 59, 59, 999)`. */
  function EndOfDay(d: DateValue): DateValue {
    SetHours(d, 23, 59, 59, 999)
  }

  /** A `Date` object, whose value `setHours` changes in place. */
  class JsDate {
    var value: DateValue

    constructor (v: DateValue)
      ensures value == v
    {
      value := v;
    }

    method SetHoursInPlace(h: nat, m: nat, s: nat, ms: nat)
      requires h <= 23 && m <= 59 && s <= 59 && ms <= 999
      modifies this
      ensures value == SetHours(old(value), h, m, s, ms)
    {
      if value.At? {
        value := At(value.dt.(hours := h, minutes := m, seconds := s, milliseconds := ms));
      }
    }
  }

  /** Reads back a `yyyy-MM-ddTHH:mm:ss` string; the partner of `FormatLocal`. */
  function ParseLocal(s: string): Option<DateTime> {
    if |s| == 19 && s[4] == '-' && s[7] == '-' && s[10] == 'T' && s[13] == ':' && s[16] == ':'
       && AllDigits(s[0..4]) && AllDigits(s[5..7]) && AllDigits(s[8..10])
       && AllDigits(s[11..13]) && AllDigits(s[14..16]) && AllDigits(s[17..19])
    then Some(DateTime(DigitsValue(s[0..4]), DigitsValue(s[5..7]), DigitsValue(s[8..10]),
                       DigitsValue(s[11..13]), DigitsValue(s[14..16]), DigitsValue(s[17..19]), 0))
    else None
  }

  function Pow10(k: nat): nat {
    if k == 0 then 1 else 10 * Pow10(k - 1)
  }

  lemma {:induction false} DigitsLength(n: nat, width: nat)
    requires n < Pow10(width)
    ensures |Digits(n)| <= if width == 0 then 1 else width
  {
    if n >= 10 {
      DigitsLength(n / 10, width - 1);
    }
  }

  lemma PaddedWidth(n: nat, width: nat)
    requires 1 <= width && n < Pow10(width)
    ensures |Padded(n, width)| == width
  {
    DigitsLength(n, width);
  }

  /** Where each field sits in a `yyyy-MM-ddTHH:mm:ss` string. */
  lemma Layout(y: string, mo: string, d: string, h: string, mi: string, se: string)
    requires |y| == 4 && |mo| == 2 && |d| == 2 && |h| == 2 && |mi| == 2 && |se| == 2
    ensures var s := y + "-" + mo + "-" + d + "T" + h + ":" + mi + ":" + se;
            && |s| == 19 && s[4] == '-' && s[7] == '-' && s[10] == 'T' && s[13] == ':' && s[16] == ':'
            && s[0..4] == y && s[5..7] == mo && s[8..10] == d
            && s[11..13] == h && s[14..16] == mi && s[17..19] == se
  {
    var s := y + "-" + mo + "-" + d + "T" + h + ":" + mi + ":" + se;
    assert s == y + ("-" + mo + "-" + d + "T" + h + ":" + mi + ":" + se);
    Middle(y + "-", mo, "-" + d + "T" + h + ":" + mi + ":" + se);
    assert s == y + "-" + mo + "-" + d + "T" + h + ":" + mi + ":" + se;
    Middle(y + "-" + mo + "-", d, "T" + h + ":" + mi + ":" + se);
    Middle(y + "-" + mo + "-" + d + "T", h, ":" + mi + ":" + se);
    Middle(y + "-" + mo + "-" + d + "T" + h + ":", mi, ":" + se);
    Middle(y + "-" + mo + "-" + d + "T" + h + ":" + mi + ":", se, []);
  }

  lemma Middle<T>(a: seq<T>, b: seq<T>, c: seq<T>)
    ensures (a + b + c)[|a|..|a| + |b|] == b
  {
  }

  /** Formatting a valid, in-range date and reading it back gives the same
      date-time to the second: only the milliseconds are lost. */
  lemma FormatParseRoundTrip(dt: DateTime)
    requires InRange(dt)
    ensures FormatLocal(At(dt)).Ok? && ParseLocal(FormatLocal(At(dt)).value) == Some(dt.(milliseconds := 0))
  {
    assert Pow10(2) == 100 && Pow10(4) == 10000 by {
      assert Pow10(1) == 10;
      assert Pow10(3) == 1000;
    }
    var y, mo, d := Padded(dt.year, 4), Padded(dt.month, 2), Padded(dt.day, 2);
    var h, mi, se := Padded(dt.hours, 2), Padded(dt.minutes, 2), Padded(dt.seconds, 2);
    PaddedWidth(dt.year, 4); PaddedWidth(dt.month, 2); PaddedWidth(dt.day, 2);
    PaddedWidth(dt.hours, 2); PaddedWidth(dt.minutes, 2); PaddedWidth(dt.seconds, 2);
    var s := FormatLocal(At(dt)).value;
    assert s == y + "-" + mo + "-" + d + "T" + h + ":" + mi + ":" + se;
    Layout(y, mo, d, h, mi, se);
    PaddedValue(dt.year, 4); PaddedValue(dt.month, 2); PaddedValue(dt.day, 2);
    PaddedValue(dt.hours, 2); PaddedValue(dt.minutes, 2); PaddedValue(dt.seconds, 2);
  }

  lemma EndOfDayDigits()
    ensures Padded(23, 2) == "23" && Padded(59, 2) == "59"
  {
    assert Digits(2) == "2";
    assert DigitChar(3) == '3';
    assert Digits(23) == "23";
    assert Digits(5) == "5";
    assert DigitChar(9) == '9';
    assert Digits(59) == "59";
  }

  /** The end of a day formats as that day followed by `T23:59:59`: the 999
      milliseconds `setHours` adds never reach the query text. */
  lemma EndOfDayFormat(dt: DateTime)
    ensures FormatLocal(EndOfDay(At(dt))) == Ok(DatePart(dt) + "T23:59:59")
  {
    var e := dt.(hours := 23, minutes := 59, seconds := 59, milliseconds := 999);
    assert EndOfDay(At(dt)) == At(e);
    assert FormatLocal(At(e)) == Ok(DatePart(e) + "T" + TimePart(e));
    EndOfDayTimePart(e);
    assert DatePart(e) == DatePart(dt);
    assert DatePart(e) + "T" + TimePart(e) == DatePart(dt) + "T23:59:59";
  }

  lemma EndOfDayTimePart(e: DateTime)
    requires e.hours == 23 && e.minutes == 59 && e.seconds == 59
    ensures TimePart(e) == "23:59:59"
  {
    EndOfDayDigits();
  }

  /** Formatting ignores milliseconds. */
  lemma FormatIgnoresMilliseconds(dt: DateTime, ms: nat)
    ensures FormatLocal(At(dt.(milliseconds := ms))) == FormatLocal(At(dt))
  {
    var e := dt.(milliseconds := ms);
    assert DatePart(e) == DatePart(dt);
    assert TimePart(e) == TimePart(dt);
  }
}
