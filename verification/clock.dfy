/**
 * Wall-clock readings and their conversion to Unix epoch milliseconds,
 * the first field of every status payload.
 */
module Clock {

  const NanosPerSecond: nat := 1_000_000_000
  const NanosPerMilli: nat := 1_000_000
  const MillisPerSecond: nat := 1_000
  /** 2^64: Rust's `u64` arithmetic wraps modulo this in a release build. */
  const U64Modulus: nat := 0x1_0000_0000_0000_0000
  const I64Max: nat := 0x7FFF_FFFF_FFFF_FFFF
  /** The last whole second whose millisecond count still fits in an `i64`. */
  const MaxEpochSeconds: nat := (I64Max - 999) / 1000

  datatype EpochTime = EpochTime(secs: nat, nanos: nat)

  /**
   * A `SystemTime` at or after the Unix epoch, read as the `Duration` that
   * `duration_since(UNIX_EPOCH)` returns: whole seconds and sub-second nanoseconds.
   */
  type Timestamp = t: EpochTime | t.nanos < NanosPerSecond && t.secs <= MaxEpochSeconds
    witness EpochTime(0, 0)

  function TotalNanos(t: Timestamp): nat
  {
    t.secs * NanosPerSecond + t.nanos
  }

  /** `a` is the same instant as `b` or an earlier one. */
  predicate NotLater(a: Timestamp, b: Timestamp)
  {
    a.secs < b.secs || (a.secs == b.secs && a.nanos <= b.nanos)
  }

  lemma DivisionCharacterized(x: nat, d: nat, q: nat)
    requires 0 < d
    requires q * d <= x < (q + 1) * d
    ensures x / d == q
  {
    var r := x / d;
    assert r * d <= x < (r + 1) * d;
    assert r < q ==> (r + 1) * d <= q * d;
    assert q < r ==> (q + 1) * d <= r * d;
  }

  /**
   * Milliseconds since the epoch, computed without overflow: the number of whole
   * milliseconds in the elapsed time, which always fits in an `i64`.
   */
  function Millis(t: Timestamp): (ms: nat)
    ensures ms <= I64Max
    ensures ms * NanosPerMilli <= TotalNanos(t) < (ms + 1) * NanosPerMilli
  {
    var subMillis := t.nanos / NanosPerMilli;
    assert subMillis * NanosPerMilli <= t.nanos < (subMillis + 1) * NanosPerMilli;
    t.secs * MillisPerSecond + subMillis
  }

  /** The millisecond count never decreases as time advances. */
  lemma MillisMonotone(a: Timestamp, b: Timestamp)
    requires NotLater(a, b)
    ensures Millis(a) <= Millis(b)
  {
    if a.secs == b.secs {
      assert TotalNanos(a) <= TotalNanos(b);
      assert Millis(b) < Millis(a) ==> (Millis(b) + 1) * NanosPerMilli <= Millis(a) * NanosPerMilli;
    } else {
      assert a.nanos / NanosPerMilli < MillisPerSecond;
      assert Millis(a) < (a.secs + 1) * MillisPerSecond <= b.secs * MillisPerSecond;
    }
  }

  /**
   * `last_checked_time_millis` as written: the nanosecond count `10^9 * secs + nanos`
   * is formed in `u64`, which wraps modulo 2^64 in a release build, and then divided.
   */
  function MillisAsWritten(t: Timestamp): (ms: nat)
    ensures ms * NanosPerMilli < U64Modulus
    ensures ms <= I64Max
  {
    var wrapped := (NanosPerSecond * t.secs + t.nanos) % U64Modulus;
    assert (wrapped / NanosPerMilli) * NanosPerMilli <= wrapped;
    wrapped / NanosPerMilli
  }

  /** Until the nanosecond count reaches 2^64 the code as written computes the intended value. */
  lemma MillisAsWrittenAgreesBeforeWrap(t: Timestamp)
    requires TotalNanos(t) < U64Modulus
    ensures MillisAsWritten(t) == Millis(t)
  {
    assert (NanosPerSecond * t.secs + t.nanos) % U64Modulus == TotalNanos(t);
    DivisionCharacterized(TotalNanos(t), NanosPerMilli, Millis(t));
  }

  /**
   * One nanosecond before and exactly at second 18446744074 (in the year 2554) the
   * code as written jumps from about 1.8 * 10^13 milliseconds back to 290.
   */
  const LastBeforeWrap: Timestamp := EpochTime(18_446_744_073, 709_551_615)
  const FirstAfterWrap: Timestamp := EpochTime(18_446_744_074, 0)

  lemma MillisAsWrittenRunsBackwards()
    ensures NotLater(LastBeforeWrap, FirstAfterWrap)
    ensures MillisAsWritten(LastBeforeWrap) == 18_446_744_073_709
    ensures MillisAsWritten(FirstAfterWrap) == 290
    ensures Millis(FirstAfterWrap) == 18_446_744_074_000
  {
  }
}
