/** The `mm:ss` display of a duration in seconds: `formatTime` of
    js/models/timer.js, repeated inline by both popout windows and, behind a
    zero guard, by the two statistics screens. */
module TimeFormat {
  import opened Common

  predicate IsDigit(c: char)
  {
    '0' <= c <= '9'
  }

  predicate AllDigits(s: string)
  {
    forall i :: 0 <= i < |s| ==> IsDigit(s[i])
  }

  function DigitChar(d: int): (c: char)
    requires 0 <= d < 10
    ensures IsDigit(c) && c as int - '0' as int == d
  {
    ('0' as int + d) as char
  }

  /** `n.toString()` for a whole number `n >= 0`. */
  function NatToString(n: nat): (s: string)
    ensures |s| >= 1 && AllDigits(s)
    ensures n < 10 ==> |s| == 1
    ensures 10 <= n < 100 ==> |s| == 2
  {
    if n < 10 then [DigitChar(n)] else NatToString(n / 10) + [DigitChar(n % 10)]
  }

  /** `i.toString()` for any whole number: a minus sign, then the digits. */
  function IntToString(i: int): string
  {
    if i < 0 then "-" + NatToString(-i) else NatToString(i)
  }

  /** `s.padStart(len, c)`: `c` repeated in front of `s` up to length `len`. */
  function PadStart(s: string, len: nat, c: char): string
    decreases len - |s|
  {
    if |s| >= len then s else PadStart([c] + s, len, c)
  }

  /** A padded string is `s` with copies of `c` in front, `len` long unless `s`
      is already longer. */
  lemma {:induction false} PadStartShape(s: string, len: nat, c: char)
    ensures |PadStart(s, len, c)| == if |s| >= len then |s| else len
    ensures PadStart(s, len, c)[|PadStart(s, len, c)| - |s|..] == s
    ensures forall i :: 0 <= i < |PadStart(s, len, c)| - |s| ==> PadStart(s, len, c)[i] == c
    decreases len - |s|
  {
    if |s| < len {
      var t := [c] + s;
      var r := PadStart(t, len, c);
      assert PadStart(s, len, c) == r;
      PadStartShape(t, len, c);
      assert r[|r| - |t|..] == t;
      assert r[|r| - |s|..] == t[1..] == s;
      assert r[|r| - |t|] == c;
    }
  }

  /** `Math.trunc`: rounds towards zero. */
  function Trunc(x: real): int
  {
    if x >= 0.0 then x.Floor else -((-x).Floor)
  }

  /** JavaScript's `x % m` on numbers: the remainder has the sign of `x`. */
  function JsRem(x: real, m: real): real
    requires m != 0.0
  {
    x - m * Trunc(x / m) as real
  }

  /** `formatTime(seconds)`: `pad(floor(seconds / 60)) + ":" + pad(floor(seconds % 60))`,
      each field left-padded with '0' to two characters. A non-negative
      duration shows as digits, ':' and exactly two digits, and below 100
      minutes as exactly `mm:ss`. */
  function FormatTime(seconds: real): (r: string)
    ensures seconds >= 0.0 ==>
      |r| >= 5 && r[|r| - 3] == ':' && AllDigits(r[..|r| - 3]) && AllDigits(r[|r| - 2..])
    ensures 0.0 <= seconds < 6000.0 ==> |r| == 5
  {
    var minutes := PadStart(IntToString((seconds / 60.0).Floor), 2, '0');
    var secs := PadStart(IntToString(JsRem(seconds, 60.0).Floor), 2, '0');
    FieldShapes(seconds);
    assert seconds >= 0.0 ==> (minutes + ":" + secs)[..|minutes|] == minutes;
    assert seconds >= 0.0 ==> (minutes + ":" + secs)[|minutes| + 1..] == secs;
    minutes + ":" + secs
  }

  /** The two fields of a non-negative duration's display: the minutes field
      is at least two digits, two when below 100 minutes, and the seconds
      field is exactly two digits. */
  lemma FieldShapes(seconds: real)
    ensures seconds >= 0.0 ==>
      var minutes := PadStart(IntToString((seconds / 60.0).Floor), 2, '0');
      var secs := PadStart(IntToString(JsRem(seconds, 60.0).Floor), 2, '0');
      |minutes| >= 2 && AllDigits(minutes) && |secs| == 2 && AllDigits(secs)
      && (seconds < 6000.0 ==> |minutes| == 2)
  {
    if seconds >= 0.0 {
      ClockFields(seconds);
      var q, r := seconds.Floor / 60, seconds.Floor % 60;
      PaddedField(q);
      PaddedField(r);
      PadStartShape(NatToString(q), 2, '0');
      PadStartShape(NatToString(r), 2, '0');
      if seconds < 6000.0 {
        assert q < 100;
      }
    }
  }

  /** A duration of zero shows as `00:00`. */
  lemma FormatZero()
    ensures FormatTime(0.0) == "00:00"
  {
    ClockFields(0.0);
    assert IntToString(0) == "0";
    assert PadStart("0", 2, '0') == PadStart("00", 2, '0') == "00";
  }

  /** The value of a string of decimal digits. */
  function ParseDigits(s: string): nat
    requires AllDigits(s)
  {
    if s == [] then 0 else ParseDigits(s[..|s| - 1]) * 10 + (s[|s| - 1] as int - '0' as int)
  }

  /** The index of the first ':' in `t`, or -1. */
  function IndexOfColon(t: string): (i: int)
    ensures -1 <= i < |t|
    ensures i >= 0 ==> t[i] == ':' && forall j :: 0 <= j < i ==> t[j] != ':'
    ensures i == -1 ==> forall j :: 0 <= j < |t| ==> t[j] != ':'
  {
    if t == [] then -1
    else if t[0] == ':' then 0
    else
      var k := IndexOfColon(t[1..]);
      if k == -1 then -1 else k + 1
  }

  /** Reads a display back into its minutes and seconds fields, if it has the
      shape `digits ":" digits`. */
  function DecodeClock(t: string): Option<(nat, nat)>
  {
    var i := IndexOfColon(t);
    if i < 0 then None
    else
      var m, s := t[..i], t[i + 1..];
      if m != [] && s != [] && AllDigits(m) && AllDigits(s)
      then Some((ParseDigits(m), ParseDigits(s)))
      else None
  }

  /** Printing a whole number and reading it back gives the number. */
  lemma {:induction false} ParseNatToString(n: nat)
    ensures ParseDigits(NatToString(n)) == n
    decreases n
  {
    if n >= 10 {
      var s := NatToString(n / 10);
      ParseNatToString(n / 10);
      assert (s + [DigitChar(n % 10)])[..|s|] == s;
    }
  }

  /** A string of zeros reads as 0. */
  lemma {:induction false} ParseZeros(z: string)
    requires forall i :: 0 <= i < |z| ==> z[i] == '0'
    ensures AllDigits(z) && ParseDigits(z) == 0
    decreases |z|
  {
    if z != [] {
      ParseZeros(z[..|z| - 1]);
    }
  }

  /** Leading zeros do not change the value read. */
  lemma {:induction false} ParseLeadingZeros(z: string, s: string)
    requires forall i :: 0 <= i < |z| ==> z[i] == '0'
    requires AllDigits(s)
    ensures AllDigits(z + s) && ParseDigits(z + s) == ParseDigits(s)
    decreases |s|
  {
    ParseZeros(z);
    if s == [] {
      assert z + s == z;
    } else {
      var s' := s[..|s| - 1];
      ParseLeadingZeros(z, s');
      assert (z + s)[..|z + s| - 1] == z + s';
    }
  }

  /** A padded field of a display reads back as the number printed into it. */
  lemma PaddedField(n: nat)
    ensures AllDigits(PadStart(NatToString(n), 2, '0'))
    ensures ParseDigits(PadStart(NatToString(n), 2, '0')) == n
  {
    var s := NatToString(n);
    var r := PadStart(s, 2, '0');
    PadStartShape(s, 2, '0');
    ParseNatToString(n);
    if |s| < 2 {
      var z := r[..|r| - |s|];
      assert r == z + s;
      ParseLeadingZeros(z, s);
    }
  }

  /** For a non-negative duration of `n` whole seconds, the minutes field is
      `n / 60` and the seconds field is `n % 60`, so always below 60. */
  lemma ClockFields(seconds: real)
    requires seconds >= 0.0
    ensures (seconds / 60.0).Floor == seconds.Floor / 60
    ensures JsRem(seconds, 60.0).Floor == seconds.Floor % 60
  {
    var n := seconds.Floor;
    var q, r := n / 60, n % 60;
    assert n == 60 * q + r && 0 <= r < 60;
    assert n as real <= seconds < n as real + 1.0;
    assert q as real <= seconds / 60.0 < q as real + 1.0;
    assert Trunc(seconds / 60.0) == q;
    assert JsRem(seconds, 60.0) == seconds - 60.0 * q as real;
    assert r as real <= JsRem(seconds, 60.0) < r as real + 1.0;
  }

  /** Two digit strings joined by ':' read back as their two values. */
  lemma DecodeJoined(a: string, b: string)
    requires a != [] && b != [] && AllDigits(a) && AllDigits(b)
    ensures DecodeClock(a + ":" + b) == Some((ParseDigits(a), ParseDigits(b)))
  {
    var t := a + ":" + b;
    assert t[|a|] == ':';
    assert forall j :: 0 <= j < |a| ==> t[j] == a[j];
    var i := IndexOfColon(t);
    assert i == |a|;
    assert t[..i] == a;
    assert t[i + 1..] == b;
  }

  /** Round trip: the display of a non-negative duration reads back as its whole
      minutes and the whole seconds left over, which add up to the duration's
      whole seconds. */
  lemma DecodeFormatTime(seconds: real)
    requires seconds >= 0.0
    ensures DecodeClock(FormatTime(seconds)) == Some((seconds.Floor / 60, seconds.Floor % 60))
  {
    ClockFields(seconds);
    var n := seconds.Floor;
    var q, r := n / 60, n % 60;
    PaddedField(q);
    PaddedField(r);
    DecodeJoined(PadStart(NatToString(q), 2, '0'), PadStart(NatToString(r), 2, '0'));
  }
}
