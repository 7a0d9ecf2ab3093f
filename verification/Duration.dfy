/** Go durations: 64-bit nanoseconds computed from milliseconds. */
module Duration {
  const NS_PER_MS := 1_000_000
  const TWO_TO_64 := 0x1_0000_0000_0000_0000
  const TWO_TO_63 := 0x8000_0000_0000_0000

  /** 64-bit two's complement. */
  function Wrap(x: int): int {
    (x + TWO_TO_63) % TWO_TO_64 - TWO_TO_63
  }

  predicate Fits(x: int) {
    -TWO_TO_63 <= x < TWO_TO_63
  }

  lemma WrapFits(x: int)
    ensures Fits(Wrap(x))
    ensures Fits(x) ==> Wrap(x) == x
  {
  }

  /** The nanoseconds context.WithTimeout allows for a limit in milliseconds; none when negative. */
  function Timeout(limitMs: int): nat {
    var d := Wrap(Wrap(limitMs) * NS_PER_MS);
    if d < 0 then 0 else d
  }

  /** The limit in force is never longer than the one asked for, and equal to it without overflow. */
  lemma TimeoutBounded(limitMs: int)
    requires limitMs >= 0
    ensures Timeout(limitMs) <= limitMs * NS_PER_MS
    ensures Fits(limitMs * NS_PER_MS) ==> Timeout(limitMs) == limitMs * NS_PER_MS
  {
    WrapFits(limitMs);
    WrapFits(Wrap(limitMs) * NS_PER_MS);
  }
}
