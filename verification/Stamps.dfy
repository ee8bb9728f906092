/**
 Time stamps (timestamp.h): seconds and nanoseconds kept apart, with arithmetic that borrows.
 */
module Stamps {

  const NANOS_PER_SECOND: int := 1_000_000_000
  const NANOS_PER_MILLI: int := 1_000_000

  /** The value of a `Stamp`. */
  datatype Stamp = Stamp(seconds: int, nanos: int) {
    function TotalNanos(): int { seconds * NANOS_PER_SECOND + nanos }

    predicate Normalised() { 0 <= nanos < NANOS_PER_SECOND }

    /** `operator<=>` compares the members in order. */
    predicate Less(other: Stamp) {
      seconds < other.seconds || (seconds == other.seconds && nanos < other.nanos)
    }
  }

  // Integer division and remainder of C++ truncate towards zero.
  function TruncatedDiv(a: int, b: int): int
    requires b > 0
  {
    if a >= 0 then a / b else -((-a) / b)
  }

  function TruncatedMod(a: int, b: int): int
    requires b > 0
  {
    a - b * TruncatedDiv(a, b)
  }

  /** `delta` */
  function Delta(s: Stamp, older: Stamp): Stamp {
    var seconds := s.seconds - older.seconds;
    var nanos := s.nanos - older.nanos;
    if nanos < 0 then Stamp(seconds - 1, nanos + NANOS_PER_SECOND) else Stamp(seconds, nanos)
  }

  /** `subtractMilliseconds` */
  function Minus(s: Stamp, millis: int): Stamp {
    var seconds := s.seconds - TruncatedDiv(millis, 1000);
    var nanos := TruncatedMod(millis, 1000) * NANOS_PER_MILLI;
    if s.nanos < nanos then Stamp(seconds - 1, s.nanos + NANOS_PER_SECOND - nanos) else Stamp(seconds, s.nanos - nanos)
  }

  /** The split of a nanosecond count since the epoch in `Timestamp::stamp`. */
  function FromEpoch(count: int): Stamp {
    Stamp(TruncatedDiv(count, NANOS_PER_SECOND), TruncatedMod(count, NANOS_PER_SECOND))
  }

  lemma TruncatedModBounds(a: int, b: int)
    requires b > 0
    ensures a >= 0 ==> 0 <= TruncatedMod(a, b) < b
    ensures a < 0 ==> -b < TruncatedMod(a, b) <= 0
  {
  }

  /** On normalised stamps the lexicographic order is the order of time. */
  lemma OrderIsOrderOfTime(s: Stamp, t: Stamp)
    requires s.Normalised() && t.Normalised()
    ensures s.Less(t) <==> s.TotalNanos() < t.TotalNanos()
    ensures s == t <==> s.TotalNanos() == t.TotalNanos()
  {
  }

  /** `delta` is the exact difference, and normalised whichever stamp is the older. */
  lemma DeltaIsExact(s: Stamp, older: Stamp)
    ensures Delta(s, older).TotalNanos() == s.TotalNanos() - older.TotalNanos()
    ensures s.Normalised() && older.Normalised() ==> Delta(s, older).Normalised()
  {
  }

  /** `subtractMilliseconds` removes exactly that many milliseconds, also negative ones. */
  lemma MinusIsExact(s: Stamp, millis: int)
    ensures Minus(s, millis).TotalNanos() == s.TotalNanos() - millis * NANOS_PER_MILLI
  {
    assert millis == 1000 * TruncatedDiv(millis, 1000) + TruncatedMod(millis, 1000);
  }

  /** The result is normalised unless a negative amount carries into the seconds: there is no carry, only a borrow. */
  lemma MinusNormalisedExactlyWhen(s: Stamp, millis: int)
    requires s.Normalised()
    ensures Minus(s, millis).Normalised() <==>
            millis >= 0 || s.nanos - TruncatedMod(millis, 1000) * NANOS_PER_MILLI < NANOS_PER_SECOND
  {
    TruncatedModBounds(millis, 1000);
  }

  lemma MinusOfNegativeNotNormalised()
    ensures !Minus(Stamp(0, 999_999_999), -1).Normalised()
  {
    assert TruncatedDiv(-1, 1000) == 0;
  }

  /** The time between a stamp and itself moved back by m milliseconds is m milliseconds. */
  lemma DeltaUndoesMinus(s: Stamp, millis: int)
    requires s.Normalised() && millis >= 0
    ensures Delta(s, Minus(s, millis)) == Stamp(millis / 1000, millis % 1000 * NANOS_PER_MILLI)
  {
    TruncatedModBounds(millis, 1000);
  }

  /** The split is exact, and normalised unless it happens before the epoch and off a whole second. */
  lemma EpochSplitIsExact(count: int)
    ensures FromEpoch(count).TotalNanos() == count
    ensures FromEpoch(count).Normalised() <==> count >= 0 || count % NANOS_PER_SECOND == 0
  {
    TruncatedModBounds(count, NANOS_PER_SECOND);
  }

  /** One nanosecond before the epoch. */
  lemma SplitBeforeEpochNotNormalised()
    ensures FromEpoch(-1) == Stamp(0, -1) && !FromEpoch(-1).Normalised()
  {
    assert TruncatedDiv(-1, NANOS_PER_SECOND) == 0;
  }

  // ----- 64-bit arithmetic -----

  predicate Fits(n: int) { -0x8000_0000_0000_0000 <= n < 0x8000_0000_0000_0000 }

  /** Seconds within 2^62 of the epoch, which is more than a hundred billion years. */
  predicate InRange(s: Stamp) { s.Normalised() && -0x4000_0000_0000_0000 < s.seconds < 0x4000_0000_0000_0000 }

  /** In this range no intermediate result of `delta` or `subtractMilliseconds` overflows. */
  lemma NoOverflow(s: Stamp, older: Stamp, millis: int)
    requires InRange(s) && InRange(older) && Fits(millis)
    ensures Fits(s.seconds - older.seconds) && Fits(s.seconds - older.seconds - 1)
    ensures Fits(s.nanos - older.nanos) && Fits(s.nanos - older.nanos + NANOS_PER_SECOND)
    ensures Fits(TruncatedMod(millis, 1000) * NANOS_PER_MILLI)
    ensures Fits(s.seconds - TruncatedDiv(millis, 1000)) && Fits(s.seconds - TruncatedDiv(millis, 1000) - 1)
    ensures Fits(s.nanos + NANOS_PER_SECOND - TruncatedMod(millis, 1000) * NANOS_PER_MILLI)
    ensures Fits(s.nanos + NANOS_PER_SECOND) && Fits(s.nanos - TruncatedMod(millis, 1000) * NANOS_PER_MILLI)
  {
    TruncatedModBounds(millis, 1000);
  }

  /** A `Stamp` that is updated in place. */
  class StampCell {
    var mSeconds: int
    var mNanos: int

    function Value(): Stamp
      reads this
    {
      Stamp(mSeconds, mNanos)
    }

    constructor ()
      ensures Value() == Stamp(0, 0)
    {
      mSeconds, mNanos := 0, 0;
    }

    method SetIfNewer(seconds: int, nanos: int) returns (newer: bool)
      modifies this
      ensures newer <==> old(Value()).Less(Stamp(seconds, nanos))
      ensures Value() == if newer then Stamp(seconds, nanos) else old(Value())
    {
      if seconds > mSeconds || (seconds == mSeconds && nanos > mNanos) {
        mSeconds := seconds;
        mNanos := nanos;
        return true;
      }
      return false;
    }

    method SubtractMilliseconds(millis: int)
      modifies this
      ensures Value() == Minus(old(Value()), millis)
    {
      var secondsToSubtract := TruncatedDiv(millis, 1000);
      var nanosToSubtract := TruncatedMod(millis, 1000) * 1000000;
      mSeconds := mSeconds - secondsToSubtract;
      if mNanos < nanosToSubtract {
        mSeconds := mSeconds - 1;
        mNanos := mNanos + 1000000000;
      }
      mNanos := mNanos - nanosToSubtract;
    }
  }
}
