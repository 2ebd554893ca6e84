/** Go's `time.Duration`: a signed 64-bit count of nanoseconds. Products of
    durations wrap around modulo 2^64 exactly as `int64` arithmetic does. */
module Durations {
  import opened Text

  const Nanosecond: int := 1
  const Millisecond: int := 1_000_000
  const Second: int := 1_000_000_000
  const Minute: int := 60 * Second

  const TwoTo64: int := 0x1_0000_0000_0000_0000

  /** The `int64` that two's-complement arithmetic leaves for `x`. */
  function Wrap64(x: int): (r: int)
    ensures MinInt64 <= r <= MaxInt64
    ensures MinInt64 <= x <= MaxInt64 ==> r == x
    ensures (x - r) % TwoTo64 == 0
  {
    var m := x % TwoTo64;
    if m > MaxInt64 then m - TwoTo64 else m
  }

  /** A difference of two instants as `time.Time.Sub` returns it: exact when
      it fits in an `int64`, otherwise the nearest bound. */
  function Saturate64(x: int): (r: int)
    ensures MinInt64 <= r <= MaxInt64
    ensures MinInt64 <= x <= MaxInt64 ==> r == x
    ensures x > MaxInt64 ==> r == MaxInt64
    ensures x < MinInt64 ==> r == MinInt64
  {
    if x > MaxInt64 then MaxInt64 else if x < MinInt64 then MinInt64 else x
  }

  /** `time.Duration(n) * d`. */
  function Times(n: int, d: int): int {
    Wrap64(n * d)
  }
}
