/** 32-bit tick arithmetic: a wrapped count, and the epoch (number of wraps) it belongs to. */
module Ticks {
  const M: int := 0x1_0000_0000
  const MAX_DELAY: int := 0xFFFF_FFFF

  function Wrap(n: int): (r: int)
    ensures 0 <= r < M
  {
    n % M
  }

  function Epoch(n: int): int { n / M }

  lemma Parts(n: int)
    ensures n == Epoch(n) * M + Wrap(n)
  {
  }

  /** The parts of a number given as base plus remainder. */
  lemma PartsOf(e: int, r: int)
    requires 0 <= r < M
    ensures Epoch(e * M + r) == e && Wrap(e * M + r) == r
  {
  }

  /** A wait of less than a full turn ends in this epoch or the next, and the wrapped time tells which. */
  lemma WaitParts(now: int, k: int)
    requires 0 <= k < M
    ensures Wrap(Wrap(now) + k) == Wrap(now + k)
    ensures Wrap(now + k) < Wrap(now) <==> Epoch(now + k) == Epoch(now) + 1
    ensures Wrap(now + k) >= Wrap(now) <==> Epoch(now + k) == Epoch(now)
  {
  }
}
