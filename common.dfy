/** Values shared by every part of the model: nullable values, JavaScript
    truthiness, clock readings, durations and sums of durations. */
module Common {

  /** A JavaScript value that may be `null` (or `undefined`). */
  datatype Option<+T> = None | Some(value: T)

  /** JavaScript truthiness of a string that may be null: `null` and `""` are falsy. */
  predicate Truthy(s: Option<string>)
  {
    s.Some? && s.value != ""
  }

  /** A reading of `Date.now()`: milliseconds since the epoch. It is always
      positive, so a stored reading is truthy exactly when it is not null. */
  type Millis = t: int | t > 0 witness 1

  /** Elapsed seconds between two clock readings: `(now - start) / 1000`. */
  function Seconds(start: Millis, now: Millis): real
  {
    (now - start) as real / 1000.0
  }

  /** Two consecutive intervals measure the same time as the interval spanning both. */
  lemma SecondsAdd(a: Millis, b: Millis, c: Millis)
    ensures Seconds(a, b) + Seconds(b, c) == Seconds(a, c)
  {
  }

  /** `durations.reduce((sum, d) => sum + d, 0)`: a left fold, as `reduce` runs. */
  function Sum(s: seq<real>): real
  {
    if s == [] then 0.0 else Sum(s[..|s| - 1]) + s[|s| - 1]
  }

  /** Appending one duration raises the sum by exactly that duration. */
  lemma SumSnoc(s: seq<real>, d: real)
    ensures Sum(s + [d]) == Sum(s) + d
  {
    assert (s + [d])[..|s|] == s;
  }

  /** The sum of a concatenation is the sum of the parts. */
  lemma {:induction false} SumConcat(a: seq<real>, b: seq<real>)
    ensures Sum(a + b) == Sum(a) + Sum(b)
    decreases |b|
  {
    if b == [] {
      assert a + b == a;
    } else {
      var b' := b[..|b| - 1];
      assert a + b == (a + b') + [b[|b| - 1]];
      SumSnoc(a + b', b[|b| - 1]);
      SumConcat(a, b');
      SumSnoc(b', b[|b| - 1]);
      assert b == b' + [b[|b| - 1]];
    }
  }

  /** A sum of non-negative durations is non-negative. */
  lemma {:induction false} SumNonNegative(s: seq<real>)
    requires forall i :: 0 <= i < |s| ==> s[i] >= 0.0
    ensures Sum(s) >= 0.0
    decreases |s|
  {
    if s != [] {
      SumNonNegative(s[..|s| - 1]);
    }
  }

  /** The liveness of a window reference held by the other window
      (`timerWindow` in the main window, `window.opener` in the popout):
      no reference, a reference to an open window, or one to a closed window. */
  datatype Peer = NoWindow | OpenWindow | ClosedWindow
  {
    /** `ref && !ref.closed`: messages may be posted to it. */
    predicate IsOpen()
    {
      OpenWindow?
    }
  }
}
