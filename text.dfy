/** Text rendering used in the notification fields: Python's `f"{n}"` for
    integers and `strftime("%H:%M:%S", gmtime(n))` for whole seconds, each with
    a parser that reads the rendering back. */
module Text {

  predicate IsDigit(c: char) {
    '0' <= c <= '9'
  }

  predicate AllDigits(s: string) {
    forall i :: 0 <= i < |s| ==> IsDigit(s[i])
  }

  function DigitValue(c: char): int {
    c as int - '0' as int
  }

  function DigitChar(d: nat): (c: char)
    requires d < 10
    ensures IsDigit(c) && DigitValue(c) == d
  {
    ('0' as int + d) as char
  }

  /** Decimal digits of `n`, most significant first, without leading zeros. */
  function NatToDecimal(n: nat): (r: string)
    ensures |r| >= 1 && AllDigits(r)
    ensures r[0] == '0' <==> n == 0
    ensures n < 10 ==> |r| == 1
    decreases n
  {
    if n < 10 then [DigitChar(n)] else NatToDecimal(n / 10) + [DigitChar(n % 10)]
  }

  /** The value of a string of decimal digits (the empty string reads as 0). */
  function DecimalToNat(s: string): nat
    requires AllDigits(s)
    decreases |s|
  {
    if s == [] then 0 else DecimalToNat(s[..|s| - 1]) * 10 + DigitValue(s[|s| - 1])
  }

  lemma {:induction false} NatToDecimalRoundTrip(n: nat)
    ensures DecimalToNat(NatToDecimal(n)) == n
    decreases n
  {
    var r := NatToDecimal(n);
    if n < 10 {
      assert r[..|r| - 1] == [];
    } else {
      var p := NatToDecimal(n / 10);
      assert r == p + [DigitChar(n % 10)];
      assert r[..|r| - 1] == p;
      NatToDecimalRoundTrip(n / 10);
    }
  }

  /** A rendering of an integer: digits, or a minus sign followed by digits. */
  predicate IsDecimal(s: string) {
    (|s| >= 1 && AllDigits(s)) || (|s| >= 2 && s[0] == '-' && AllDigits(s[1..]))
  }

  /** Python's `str` of an int: a leading `-` for negative values, then the digits of the magnitude. */
  function IntToDecimal(i: int): (r: string)
    ensures IsDecimal(r)
    ensures r[0] == '-' <==> i < 0
  {
    if i < 0 then "-" + NatToDecimal(-i) else NatToDecimal(i)
  }

  function DecimalToInt(s: string): int
    requires IsDecimal(s)
  {
    if s[0] == '-' then -(DecimalToNat(s[1..]) as int) else DecimalToNat(s)
  }

  lemma IntToDecimalRoundTrip(i: int)
    ensures DecimalToInt(IntToDecimal(i)) == i
  {
    var r := IntToDecimal(i);
    if i < 0 {
      var digits := NatToDecimal(-i);
      assert r == "-" + digits;
      assert r[1..] == digits;
      NatToDecimalRoundTrip(-i);
    } else {
      assert r == NatToDecimal(i);
      NatToDecimalRoundTrip(i);
    }
  }

  /** `%02d`-style rendering of a number below 100, as strftime pads %H, %M and %S. */
  function Pad2(n: nat): (r: string)
    requires n < 100
    ensures |r| == 2 && AllDigits(r) && DecimalToNat(r) == n
  {
    var r := [DigitChar(n / 10), DigitChar(n % 10)];
    assert r[..1][..0] == [];
    assert DecimalToNat(r[..1]) == n / 10;
    r
  }

  const SecondsPerDay: nat := 86400

  /** `time.strftime("%H:%M:%S", time.gmtime(seconds))`: the time of day that
      `seconds` after the epoch falls on, in UTC. */
  function Clock(seconds: nat): (r: string)
    ensures |r| == 8 && r[2] == ':' && r[5] == ':'
  {
    Pad2(seconds / 3600 % 24) + ":" + Pad2(seconds / 60 % 60) + ":" + Pad2(seconds % 60)
  }

  /** Reads `HH:MM:SS` back as (hours, minutes, seconds). */
  function ClockParts(s: string): (nat, nat, nat)
    requires |s| == 8 && AllDigits(s[0..2]) && AllDigits(s[3..5]) && AllDigits(s[6..8])
  {
    (DecimalToNat(s[0..2]), DecimalToNat(s[3..5]), DecimalToNat(s[6..8]))
  }

  lemma TimeOfDay(n: nat)
    ensures n / 3600 % 24 == n % SecondsPerDay / 3600
    ensures n / 60 % 60 == n % 3600 / 60
    ensures n % 60 == n % 3600 % 60
    ensures n % SecondsPerDay == (n % SecondsPerDay / 3600) * 3600 + (n % 3600 / 60) * 60 + n % 60
  {
    var d, t := n / SecondsPerDay, n % SecondsPerDay;
    assert n == d * SecondsPerDay + t;
    assert n / 3600 == d * 24 + t / 3600;
    var h, u := n / 3600, n % 3600;
    assert n == h * 3600 + u;
    assert n / 60 == h * 60 + u / 60;
    assert t % 3600 == u;
  }

  /** The rendering is well formed and reads back as the time of day of `n`,
      which adds up to `n` modulo one day. */
  lemma ClockRoundTrip(n: nat)
    ensures var r := Clock(n);
      AllDigits(r[0..2]) && AllDigits(r[3..5]) && AllDigits(r[6..8]) &&
      ClockParts(r) == (n / 3600 % 24, n / 60 % 60, n % 60)
    ensures var (h, m, s) := ClockParts(Clock(n));
      h < 24 && m < 60 && s < 60 && h * 3600 + m * 60 + s == n % SecondsPerDay
  {
    var r := Clock(n);
    assert r[0..2] == Pad2(n / 3600 % 24);
    assert r[3..5] == Pad2(n / 60 % 60);
    assert r[6..8] == Pad2(n % 60);
    TimeOfDay(n);
  }
}
