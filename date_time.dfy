/**
 * The slice of Python's `datetime.datetime` the generator uses: a naive
 * timestamp, `replace(hour=, minute=)` with its range checks, and
 * `strftime("%Y-%m-%d %H:%M:%S")`; plus the inverse of that `strftime`,
 * which reads the six fields back from the text.
 */
module DateTimes {
  import opened Wrappers
  import opened PyText

  datatype DateTime = DateTime(year: int, month: int, day: int, hour: int, minute: int, second: int)

  predicate IsLeapYear(year: int) {
    year % 4 == 0 && (year % 100 != 0 || year % 400 == 0)
  }

  function DaysInMonth(year: int, month: int): (days: int)
    requires 1 <= month <= 12
    ensures 28 <= days <= 31
  {
    if month == 2 then (if IsLeapYear(year) then 29 else 28)
    else if month == 4 || month == 6 || month == 9 || month == 11 then 30
    else 31
  }

  /** The field ranges `datetime` enforces (years are those `%Y` prints with four digits). */
  predicate Valid(t: DateTime) {
    1000 <= t.year <= 9999 && 1 <= t.month <= 12 && 1 <= t.day <= DaysInMonth(t.year, t.month) &&
    0 <= t.hour <= 23 && 0 <= t.minute <= 59 && 0 <= t.second <= 59
  }

  /**
   * `t.replace(hour=hour, minute=minute)`: a copy of `t` with those two
   * fields changed, or ValueError when either is out of range (the hour is
   * checked first).
   */
  function Replace(t: DateTime, hour: int, minute: int): (r: Result<DateTime>)
    ensures r.Ok? <==> 0 <= hour <= 23 && 0 <= minute <= 59
    ensures r.Ok? ==> r.value.hour == hour && r.value.minute == minute
    ensures r.Ok? ==> r.value.(hour := t.hour, minute := t.minute) == t
    ensures r.Ok? && Valid(t) ==> Valid(r.value)
    ensures !(0 <= hour <= 23) ==> r == Err(HourOutOfRange(hour))
  {
    if !(0 <= hour <= 23) then Err(HourOutOfRange(hour))
    else if !(0 <= minute <= 59) then Err(MinuteOutOfRange(minute))
    else Ok(t.(hour := hour, minute := minute))
  }

  function Pow10(w: nat): (p: nat)
    ensures p >= 1
  {
    if w == 0 then 1 else 10 * Pow10(w - 1)
  }

  /** `n` written with exactly `width` digits, zero-padded on the left. */
  function Pad(n: nat, width: nat): (s: string)
    requires n < Pow10(width)
    ensures |s| == width && AllDigits(s)
  {
    if width == 0 then "" else Pad(n / 10, width - 1) + [DigitChar(n % 10)]
  }

  /** The zero-padded numeral reads back as the number it renders. */
  lemma {:induction false} DigitsValueOfPad(n: nat, width: nat)
    requires n < Pow10(width)
    ensures DigitsValue(Pad(n, width)) == n
  {
    if width > 0 {
      var s := Pad(n, width);
      DigitsValueOfPad(n / 10, width - 1);
      assert s[..|s| - 1] == Pad(n / 10, width - 1);
      DigitValueOfChar(n % 10);
    }
  }

  /** `t.strftime("%Y-%m-%d %H:%M:%S")`. */
  function Strftime(t: DateTime): (s: string)
    requires Valid(t)
    ensures |s| == 19
    ensures s[4] == '-' && s[7] == '-' && s[10] == ' ' && s[13] == ':' && s[16] == ':'
  {
    Pad(t.year, 4) + "-" + Pad(t.month, 2) + "-" + Pad(t.day, 2) + " " +
    Pad(t.hour, 2) + ":" + Pad(t.minute, 2) + ":" + Pad(t.second, 2)
  }

  /** Reads a `%Y-%m-%d %H:%M:%S` string back into its six fields. */
  function ParseTimestamp(s: string): (r: Option<DateTime>)
    ensures r.Some? ==> |s| == 19
  {
    if |s| == 19 && s[4] == '-' && s[7] == '-' && s[10] == ' ' && s[13] == ':' && s[16] == ':' &&
       AllDigits(s[0..4]) && AllDigits(s[5..7]) && AllDigits(s[8..10]) &&
       AllDigits(s[11..13]) && AllDigits(s[14..16]) && AllDigits(s[17..19])
    then Some(DateTime(DigitsValue(s[0..4]), DigitsValue(s[5..7]), DigitsValue(s[8..10]),
                       DigitsValue(s[11..13]), DigitsValue(s[14..16]), DigitsValue(s[17..19])))
    else None
  }

  /** Formatting loses nothing: every valid timestamp is recovered from its text. */
  lemma ParseStrftime(t: DateTime)
    requires Valid(t)
    ensures ParseTimestamp(Strftime(t)) == Some(t)
  {
    var s := Strftime(t);
    assert s[0..4] == Pad(t.year, 4);
    assert s[5..7] == Pad(t.month, 2);
    assert s[8..10] == Pad(t.day, 2);
    assert s[11..13] == Pad(t.hour, 2);
    assert s[14..16] == Pad(t.minute, 2);
    assert s[17..19] == Pad(t.second, 2);
    DigitsValueOfPad(t.year, 4);
    DigitsValueOfPad(t.month, 2);
    DigitsValueOfPad(t.day, 2);
    DigitsValueOfPad(t.hour, 2);
    DigitsValueOfPad(t.minute, 2);
    DigitsValueOfPad(t.second, 2);
  }
}
