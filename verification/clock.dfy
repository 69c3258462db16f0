/**
 * The wall clock as the services read it: `datetime.utcnow()` is an
 * injected reading with one-second resolution. Its two printed forms are
 * the compact stamp `strftime('%Y%m%d_%H%M%S')` (doc ids, store paths and
 * the registry timestamps) and `isoformat()` (record timestamps). The
 * registry cleanup reads compact stamps back with
 * `strptime(..., '%Y%m%d_%H%M%S')` and compares `.timestamp()` values.
 */
module Clock {
  import opened Common

  datatype DateTime = DateTime(year: int, month: int, day: int, hour: int, minute: int, second: int)

  predicate IsLeapYear(y: int)
  {
    y % 4 == 0 && (y % 100 != 0 || y % 400 == 0)
  }

  function DaysInMonth(y: int, m: int): int
  {
    if m == 2 then (if IsLeapYear(y) then 29 else 28)
    else if m == 4 || m == 6 || m == 9 || m == 11 then 30
    else 31
  }

  /** The readings Python's `datetime` can hold (years 1 to 9999, real calendar days). */
  predicate ValidTime(t: DateTime)
  {
    && 1 <= t.year <= 9999
    && 1 <= t.month <= 12
    && 1 <= t.day <= DaysInMonth(t.year, t.month)
    && 0 <= t.hour < 24
    && 0 <= t.minute < 60
    && 0 <= t.second < 60
  }

  // ---------------------------------------------------------------------
  // Zero-padded decimal fields

  predicate IsDigit(c: char)
  {
    '0' <= c <= '9'
  }

  predicate AllDigits(s: string)
  {
    forall k :: 0 <= k < |s| ==> IsDigit(s[k])
  }

  function Pow10(w: nat): nat
  {
    if w == 0 then 1 else 10 * Pow10(w - 1)
  }

  /** `n` printed in exactly `w` decimal digits, zero-padded on the left. */
  function Digits(n: nat, w: nat): (s: string)
    requires n < Pow10(w)
    ensures |s| == w && AllDigits(s)
  {
    if w == 0 then []
    else Digits(n / 10, w - 1) + [('0' as int + n % 10) as char]
  }

  /** The number a string of decimal digits denotes. */
  function DigitsValue(s: string): nat
    requires AllDigits(s)
  {
    if s == [] then 0
    else DigitsValue(s[..|s| - 1]) * 10 + (s[|s| - 1] as int - '0' as int)
  }

  lemma {:induction false} DigitsRoundTrip(n: nat, w: nat)
    requires n < Pow10(w)
    ensures DigitsValue(Digits(n, w)) == n
  {
    if w > 0 {
      var s := Digits(n, w);
      assert s[..|s| - 1] == Digits(n / 10, w - 1);
      DigitsRoundTrip(n / 10, w - 1);
    }
  }

  // ---------------------------------------------------------------------
  // strftime('%Y%m%d_%H%M%S') and strptime with the same format

  /** `t.strftime('%Y%m%d_%H%M%S')`: fifteen characters, `_` at index 8, digits elsewhere. */
  function Compact(t: DateTime): (s: string)
    requires ValidTime(t)
    ensures |s| == 15 && s[8] == '_'
    ensures AllDigits(s[..8]) && AllDigits(s[9..])
  {
    var date := Digits(t.year, 4) + Digits(t.month, 2) + Digits(t.day, 2);
    var time := Digits(t.hour, 2) + Digits(t.minute, 2) + Digits(t.second, 2);
    var s := date + "_" + time;
    assert s[..8] == date && s[9..] == time;
    s
  }

  /**
   * `datetime.strptime(s, '%Y%m%d_%H%M%S')` on the strict fifteen-character
   * form: None where Python raises ValueError (wrong shape, or a field out
   * of the calendar's range).
   */
  function ParseCompact(s: string): Option<DateTime>
  {
    if |s| == 15 && s[8] == '_' && AllDigits(s[..8]) && AllDigits(s[9..]) then
      assert AllDigits(s[0..4]) && AllDigits(s[4..6]) && AllDigits(s[6..8]) by {
        assert s[0..4] == s[..8][0..4] && s[4..6] == s[..8][4..6] && s[6..8] == s[..8][6..8];
      }
      assert AllDigits(s[9..11]) && AllDigits(s[11..13]) && AllDigits(s[13..15]) by {
        assert s[9..11] == s[9..][0..2] && s[11..13] == s[9..][2..4] && s[13..15] == s[9..][4..6];
      }
      var t := DateTime(DigitsValue(s[0..4]), DigitsValue(s[4..6]), DigitsValue(s[6..8]),
                        DigitsValue(s[9..11]), DigitsValue(s[11..13]), DigitsValue(s[13..15]));
      if ValidTime(t) then Some(t) else None
    else None
  }

  /** A stamp the services print is read back as the same reading. */
  lemma CompactRoundTrip(t: DateTime)
    requires ValidTime(t)
    ensures ParseCompact(Compact(t)) == Some(t)
  {
    var s := Compact(t);
    assert s[0..4] == Digits(t.year, 4);
    assert s[4..6] == Digits(t.month, 2);
    assert s[6..8] == Digits(t.day, 2);
    assert s[9..11] == Digits(t.hour, 2);
    assert s[11..13] == Digits(t.minute, 2);
    assert s[13..15] == Digits(t.second, 2);
    DigitsRoundTrip(t.year, 4);
    DigitsRoundTrip(t.month, 2);
    DigitsRoundTrip(t.day, 2);
    DigitsRoundTrip(t.hour, 2);
    DigitsRoundTrip(t.minute, 2);
    DigitsRoundTrip(t.second, 2);
  }

  /** Two readings print the same stamp only when they are the same second. */
  lemma CompactInjective(a: DateTime, b: DateTime)
    requires ValidTime(a) && ValidTime(b)
    ensures Compact(a) == Compact(b) <==> a == b
  {
    CompactRoundTrip(a);
    CompactRoundTrip(b);
  }

  // ---------------------------------------------------------------------
  // isoformat() and timestamp()

  /** `t.isoformat()` for a reading without microseconds. */
  function IsoFormat(t: DateTime): (s: string)
    requires ValidTime(t)
    ensures |s| == 19 && s[4] == '-' && s[7] == '-' && s[10] == 'T' && s[13] == ':' && s[16] == ':'
  {
    Digits(t.year, 4) + "-" + Digits(t.month, 2) + "-" + Digits(t.day, 2) + "T"
      + Digits(t.hour, 2) + ":" + Digits(t.minute, 2) + ":" + Digits(t.second, 2)
  }

  /** Days from 1970-01-01 to the given civil date (proleptic Gregorian calendar). */
  function DaysFromCivil(y: int, m: int, d: int): int
    requires 1 <= y && 1 <= m <= 12
  {
    var y' := if m <= 2 then y - 1 else y;
    var era := y' / 400;
    var yoe := y' - era * 400;
    var mp := if m > 2 then m - 3 else m + 9;
    var doy := (153 * mp + 2) / 5 + d - 1;
    var doe := yoe * 365 + yoe / 4 - yoe / 100 + doy;
    era * 146097 + doe - 719468
  }

  /** `t.timestamp()`: seconds since the epoch. */
  function EpochSeconds(t: DateTime): int
    requires ValidTime(t)
  {
    DaysFromCivil(t.year, t.month, t.day) * 86400 + t.hour * 3600 + t.minute * 60 + t.second
  }
}
