/** The two free helpers of the player component: `clamp` and `formatTime`
    (src/components/MusicPlayer.tsx, lines 20-29). */
module Helpers {

  function Min(a: real, b: real): real { if a <= b then a else b }

  function Max(a: real, b: real): real { if a >= b then a else b }

  /** `clamp(n, min, max)` is `Math.max(min, Math.min(max, n))`. When the bounds
      are crossed (hi < lo) the lower bound wins, as with the two Math calls. */
  function Clamp(n: real, lo: real, hi: real): (r: real)
    ensures lo <= hi ==> lo <= r <= hi
    ensures lo <= n <= hi ==> r == n
    ensures n <= lo ==> r == lo
    ensures lo <= hi <= n ==> r == hi
    ensures hi < lo ==> r == lo
  {
    Max(lo, Min(hi, n))
  }

  /** Clamping twice is clamping once, for any bounds. */
  lemma ClampIdempotent(n: real, lo: real, hi: real)
    ensures Clamp(Clamp(n, lo, hi), lo, hi) == Clamp(n, lo, hi)
  {
  }

  // ---------------------------------------------------------------------------
  // Decimal rendering: JavaScript's `String(n)` for a non-negative integer.

  predicate IsDigit(c: char) { '0' <= c <= '9' }

  predicate AllDigits(s: string) { forall i :: 0 <= i < |s| ==> IsDigit(s[i]) }

  function Digit(d: int): (c: char)
    requires 0 <= d < 10
    ensures IsDigit(c)
  {
    ('0' as int + d) as char
  }

  function DigitValue(c: char): int { c as int - '0' as int }

  /** The decimal numeral of `n`, most significant digit first, without
      leading zeros. */
  function NatToString(n: nat): (r: string)
    ensures |r| >= 1 && AllDigits(r)
    ensures r[0] == '0' ==> n == 0
    ensures n < 10 <==> |r| == 1
    decreases n
  {
    if n < 10 then [Digit(n)] else NatToString(n / 10) + [Digit(n % 10)]
  }

  /** The value a string of digits denotes; an independent reading of a numeral,
      least significant digit last. */
  function DecimalValue(s: string): int
  {
    if s == [] then 0 else DecimalValue(s[..|s| - 1]) * 10 + DigitValue(s[|s| - 1])
  }

  /** Reading back a rendered numeral gives the number. */
  lemma {:induction false} DecimalRoundTrip(n: nat)
    ensures DecimalValue(NatToString(n)) == n
  {
    if n >= 10 {
      var front := NatToString(n / 10);
      var s := front + [Digit(n % 10)];
      assert s[..|s| - 1] == front;
      DecimalRoundTrip(n / 10);
    }
  }

  /** `s.padStart(width, fill)` with a one-character fill string: the result is
      `s` preceded by as many fill characters as it takes to reach `width`. */
  function PadStart(s: string, width: nat, fill: char): (r: string)
    ensures |r| == if |s| >= width then |s| else width
    ensures r[|r| - |s|..] == s
    ensures forall i :: 0 <= i < |r| - |s| ==> r[i] == fill
  {
    if |s| >= width then s else seq(width - |s|, _ => fill) + s
  }

  // ---------------------------------------------------------------------------
  // formatTime

  /** `Math.max(0, Math.floor(totalSeconds))`: the whole seconds `formatTime`
      displays. */
  function WholeSeconds(totalSeconds: real): (s: nat)
    ensures totalSeconds < 0.0 ==> s == 0
    ensures 0.0 <= totalSeconds ==> s as real <= totalSeconds < s as real + 1.0
  {
    if totalSeconds.Floor < 0 then 0 else totalSeconds.Floor
  }

  /** Whole seconds as minutes, a colon and the remaining seconds padded to two
      digits: the clock reading of s. */
  function ClockText(s: nat): (t: string)
    ensures ClockShaped(t, s)
  {
    ClockPiecesShaped(s);
    NatToString(s / 60) + ":" + PadStart(NatToString(s % 60), 2, '0')
  }

  /** `formatTime(totalSeconds)`: the clock reading of the floored input, or of
      0 for a negative input. */
  function FormatTime(totalSeconds: real): (t: string)
    ensures ClockShaped(t, if totalSeconds < 0.0 then 0 else totalSeconds.Floor)
  {
    ClockText(WholeSeconds(totalSeconds))
  }

  /** Zero seconds read "0:00". */
  lemma ClockTextOfZero()
    ensures ClockText(0) == "0:00"
  {
    var zero := NatToString(0);
    assert zero == ['0'] by { assert Digit(0) == '0'; }
    var p := PadStart(zero, 2, '0');
    assert p == ['0', '0'] by {
      assert p == PadStart(['0', '0'], 2, '0');
    }
    assert 0 / 60 == 0 && 0 % 60 == 0;
  }

  /** One second reads "0:01". */
  lemma ClockTextOfOne()
    ensures ClockText(1) == "0:01"
  {
    assert 1 / 60 == 0 && 1 % 60 == 1;
    var m := NatToString(0);
    assert m == ['0'] by { assert Digit(0) == '0'; }
    var r := NatToString(1);
    assert r == ['1'] by { assert Digit(1) == '1'; }
    var p := PadStart(r, 2, '0');
    assert p == ['0', '1'] by {
      assert p == PadStart(['0', '1'], 2, '0');
    }
  }

  /** A negative time is shown as "0:00". */
  lemma FormatTimeOfNegative(totalSeconds: real)
    requires totalSeconds < 0.0
    ensures FormatTime(totalSeconds) == "0:00"
  {
    assert WholeSeconds(totalSeconds) == 0;
    ClockTextOfZero();
  }

  /** A one-digit numeral padded to two places: a '0' then the digit. */
  lemma PaddedOneDigit(r: nat)
    requires r < 10
    ensures var p := PadStart(NatToString(r), 2, '0');
      |p| == 2 && AllDigits(p) && DecimalValue(p) == r
  {
    var d := Digit(r);
    assert PadStart(NatToString(r), 2, '0') == ['0', d] by {
      assert NatToString(r) == [d];
      assert PadStart([d], 2, '0') == PadStart(['0', d], 2, '0');
    }
    assert DecimalValue(['0', d]) == r by {
      assert ['0', d][..1] == ['0'] && ['0'][..0] == [];
      assert DigitValue(d) == r;
    }
  }

  /** A two-digit numeral is left as it is by padding to two places. */
  lemma PaddedTwoDigits(r: nat)
    requires 10 <= r < 100
    ensures var p := PadStart(NatToString(r), 2, '0');
      |p| == 2 && AllDigits(p) && DecimalValue(p) == r
  {
    var hi, lo := Digit(r / 10), Digit(r % 10);
    assert NatToString(r) == [hi, lo] by {
      assert NatToString(r / 10) == [hi];
    }
    assert DecimalValue([hi, lo]) == r by {
      assert [hi, lo][..1] == [hi] && [hi][..0] == [];
      assert DigitValue(hi) == r / 10 && DigitValue(lo) == r % 10;
      assert DecimalValue([hi]) == r / 10;
      assert DecimalValue([hi, lo]) == (r / 10) * 10 + r % 10;
    }
  }

  /** The two-digit seconds field of the clock: padding a numeral below 60 to
      two places keeps its value and yields two digits. */
  lemma PaddedSeconds(r: nat)
    requires r < 60
    ensures var p := PadStart(NatToString(r), 2, '0');
      |p| == 2 && AllDigits(p) && DecimalValue(p) == r
  {
    if r < 10 {
      PaddedOneDigit(r);
    } else {
      PaddedTwoDigits(r);
    }
  }

  /** `t` is a clock reading of s whole seconds: a numeral without leading
      zeros, a colon, and two digits whose value is below 60, with
      minutes * 60 + seconds == s. */
  predicate ClockShaped(t: string, s: int)
  {
    && |t| >= 4
    && t[|t| - 3] == ':'
    && AllDigits(t[..|t| - 3])
    && (t[0] == '0' ==> |t| == 4)
    && AllDigits(t[|t| - 2..])
    && DecimalValue(t[|t| - 2..]) < 60
    && DecimalValue(t[..|t| - 3]) * 60 + DecimalValue(t[|t| - 2..]) == s
  }

  /** A numeral without leading zeros for m, a colon and a two-digit field
      for r < 60 form the clock reading of m * 60 + r seconds. */
  lemma JoinedClockShaped(ms: string, p: string, m: int, r: int)
    requires |ms| >= 1 && AllDigits(ms) && (ms[0] == '0' ==> |ms| == 1) && DecimalValue(ms) == m
    requires |p| == 2 && AllDigits(p) && DecimalValue(p) == r < 60
    ensures ClockShaped(ms + ":" + p, m * 60 + r)
  {
    var t := ms + ":" + p;
    assert t[..|t| - 3] == ms;
    assert t[|t| - 2..] == p;
    assert t[0] == ms[0];
  }

  /** The pieces of a clock reading of s whole seconds have the `m:ss` shape
      and denote s. */
  lemma ClockPiecesShaped(s: nat)
    ensures ClockShaped(NatToString(s / 60) + ":" + PadStart(NatToString(s % 60), 2, '0'), s)
  {
    var m, r := s / 60, s % 60;
    PaddedSeconds(r);
    DecimalRoundTrip(m);
    JoinedClockShaped(NatToString(m), PadStart(NatToString(r), 2, '0'), m, r);
  }

  /** The total length shown beside the clock: `formatTime(DURATION)` with a
      duration of 3 * 60 + 45 seconds is "3:45". */
  lemma FormatTimeOfDuration()
    ensures FormatTime(225.0) == "3:45"
  {
    assert WholeSeconds(225.0) == 225 by { assert (225.0).Floor == 225; }
    assert 225 / 60 == 3 && 225 % 60 == 45;
    var m := NatToString(3);
    assert m == ['3'] by { assert Digit(3) == '3'; }
    assert 45 / 10 == 4 && 45 % 10 == 5;
    var r := NatToString(45);
    assert r == NatToString(4) + [Digit(5)];
    assert NatToString(4) == ['4'] by { assert Digit(4) == '4'; }
    assert Digit(5) == '5';
    assert r == ['4', '5'];
    assert PadStart(r, 2, '0') == r;
    assert ClockText(225) == m + ":" + r;
  }
}
