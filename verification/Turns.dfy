/** Cursors that go round a ring of n cells, as wrapped true positions. */
module Turns {
  import opened Basics

  function Slot(p: int, n: int): (k: int)
    requires n > 0
    ensures 0 <= k < n
  {
    p % n
  }

  /** How far cell k lies behind cell s, going round. */
  function Behind(k: int, s: int, n: int): int { if k >= s then k - s else k - s + n }

  lemma ModUnique(x: int, n: int, q: int, r: int)
    requires n > 0 && x == q * n + r && 0 <= r < n
    ensures x % n == r && x / n == q
  {
    var a, b := x / n, x % n;
    assert (a - q) * n == r - b by {
      assert x == a * n + b;
    }
    if a - q >= 1 {
      TimesMonotone(1, a - q, n);
    } else if a - q <= -1 {
      TimesMonotone(1, q - a, n);
    }
  }

  /** Positions less than a turn apart: the wrapped distance is the true one. */
  lemma SlotsApart(p: int, q: int, n: int)
    requires n > 0 && p <= q < p + n
    ensures Behind(Slot(q, n), Slot(p, n), n) == q - p
  {
    var a, r := p / n, p % n;
    assert p == a * n + r;
    if r + (q - p) < n {
      ModUnique(q, n, a, r + (q - p));
    } else {
      assert (a + 1) * n == a * n + n;
      ModUnique(q, n, a + 1, r + (q - p) - n);
    }
  }

  /** Moving a wrapped cursor on by less than a turn. */
  function Moved(cursor: int, step: int, size: int): int {
    if cursor + step >= size then cursor + step - size else cursor + step
  }

  lemma MovedSlot(p: int, step: int, size: int)
    requires size > 0 && 0 <= step < size
    ensures Moved(Slot(p, size), step, size) == Slot(p + step, size)
  {
    SlotsApart(p, p + step, size);
  }

  lemma SlotBefore(p: int, size: int)
    requires size > 1
    ensures Slot(p - 1, size) == if Slot(p, size) == 0 then size - 1 else Slot(p, size) - 1
  {
    SlotsApart(p - 1, p, size);
  }

  lemma SlotTurn(p: int, size: int)
    requires size > 0
    ensures Slot(p + size, size) == Slot(p, size)
  {
    ModUnique(p + size, size, p / size + 1, p % size);
  }

  lemma SlotEqual(p: int, q: int, size: int)
    requires size > 0 && p <= q < p + size
    ensures Slot(p, size) == Slot(q, size) <==> p == q
  {
    SlotsApart(p, q, size);
  }

  lemma InRun(p: int, len: int, lo: int, q: int, n: int)
    requires n > 0 && lo <= p && 0 <= len && p + len <= lo + n && lo <= q < lo + n
    ensures var i := Behind(Slot(q, n), Slot(p, n), n);
            i >= 0 && (i < len <==> p <= q < p + len) && (p <= q < p + len ==> i == q - p)
  {
    if p <= q {
      if q < p + n {
        SlotsApart(p, q, n);
      }
    } else if p < q + n {
      SlotsApart(q, p, n);
    }
  }
}
