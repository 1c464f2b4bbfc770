/**
 The arena of the best-fit allocator seen as a sequence of blocks.

 This module is the specification the pointer code in module Heap is proved against:
 a block sequence tiles the arena, an allocation carves one block, a release merges
 a block with its free neighbours.
 */
module HeapBlocks {

  /** sizeof(struct mblock_free) and sizeof(struct mblock_used), return address included. */
  const FREE_HEADER: int := 20
  const USED_HEADER: int := 12

  datatype Block = Block(addr: int, size: int, used: bool) {
    function End(): int { addr + size }
  }

  /** CO_ALIGN4_HI */
  function Align4(n: int): (r: int)
    ensures r % 4 == 0 && n <= r < n + 4
  {
    (n + 3) / 4 * 4
  }

  /** Block size needed for a request: rounded payload plus header, never below a free header. */
  function TotalSize(request: nat): (t: int)
    ensures t % 4 == 0 && t >= FREE_HEADER && t >= request + USED_HEADER
    ensures t > FREE_HEADER ==> t < request + USED_HEADER + 4
  {
    var t := Align4(request) + USED_HEADER;
    if t < FREE_HEADER then FREE_HEADER else t
  }

  lemma Split<T>(s: seq<T>, i: int)
    requires 0 <= i < |s|
    ensures s == s[..i] + [s[i]] + s[i + 1..]
  {
  }

  // ---------------------------------------------------------------- structural invariant

  ghost predicate Tiles(bs: seq<Block>, lo: int, hi: int) {
    && |bs| > 0
    && bs[0].addr == lo
    && bs[|bs| - 1].End() == hi
    && (forall i, j :: 0 <= i && j == i + 1 && j < |bs| ==> bs[i].End() == bs[j].addr)
  }

  ghost predicate SizesOk(bs: seq<Block>) {
    forall i :: 0 <= i < |bs| ==> bs[i].size >= FREE_HEADER && bs[i].size % 4 == 0
  }

  ghost predicate Coalesced(bs: seq<Block>) {
    forall i, j :: 0 <= i && j == i + 1 && j < |bs| ==> bs[i].used || bs[j].used
  }

  /** Everything the allocator keeps true of its arena [lo, hi). */
  ghost predicate WellFormed(bs: seq<Block>, lo: int, hi: int) {
    Tiles(bs, lo, hi) && SizesOk(bs) && Coalesced(bs) && !bs[0].used
  }

  lemma Adjacent(bs: seq<Block>, i: int)
    requires Coalesced(bs) && 0 <= i < |bs| - 1
    ensures bs[i].used || bs[i + 1].used
  {
  }

  /** Blocks appear in address order and do not overlap. */
  lemma {:induction false} TilesOrdered(bs: seq<Block>, lo: int, hi: int, i: nat, j: nat)
    requires Tiles(bs, lo, hi) && SizesOk(bs)
    requires i < j < |bs|
    ensures bs[i].End() <= bs[j].addr
    decreases j
  {
    if i + 1 < j {
      TilesOrdered(bs, lo, hi, i, j - 1);
    }
    assert bs[j - 1].End() == bs[j].addr;
  }

  lemma TilesBounds(bs: seq<Block>, lo: int, hi: int, i: nat)
    requires Tiles(bs, lo, hi) && SizesOk(bs) && i < |bs|
    ensures lo <= bs[i].addr && bs[i].End() <= hi
  {
    if 0 < i {
      TilesOrdered(bs, lo, hi, 0, i);
    }
    if i < |bs| - 1 {
      TilesOrdered(bs, lo, hi, i, |bs| - 1);
    }
  }

  /** TilesOrdered and TilesBounds for all positions at once. */
  lemma TilesAll(bs: seq<Block>, lo: int, hi: int)
    requires Tiles(bs, lo, hi) && SizesOk(bs)
    ensures forall i, j :: 0 <= i < j < |bs| ==> bs[i].End() <= bs[j].addr
    ensures forall i :: 0 <= i < |bs| ==> lo <= bs[i].addr && bs[i].End() <= hi
  {
    forall i, j | 0 <= i < j < |bs|
      ensures bs[i].End() <= bs[j].addr
    {
      TilesOrdered(bs, lo, hi, i, j);
    }
    forall i | 0 <= i < |bs|
      ensures lo <= bs[i].addr && bs[i].End() <= hi
    {
      TilesBounds(bs, lo, hi, i);
    }
  }

  // ---------------------------------------------------------------- the two operations

  /** A free block may serve a request of `total` bytes; the head block must keep a header behind. */
  ghost predicate Eligible(bs: seq<Block>, i: int, total: int) {
    0 <= i < |bs| && !bs[i].used && bs[i].size >= total && (bs[i].size >= total + FREE_HEADER || i > 0)
  }

  /** The smallest eligible block, the lowest one among equals. */
  ghost predicate BestFit(bs: seq<Block>, i: int, total: int) {
    && Eligible(bs, i, total)
    && (forall j :: Eligible(bs, j, total) ==> bs[i].size < bs[j].size || (bs[i].size == bs[j].size && i <= j))
  }

  /** Bytes really taken: a remainder too small for a free header goes to the caller too. */
  function Taken(size: int, total: int): (t: int)
    ensures size >= total ==> total <= t < total + FREE_HEADER && (t == total || t == size)
    ensures size >= total && t != size ==> size - t >= FREE_HEADER
  {
    if size < total + FREE_HEADER then size else total
  }

  /** The tail of block i is handed out, or the whole block. */
  function Carve(bs: seq<Block>, i: int, total: int): seq<Block>
    requires 0 <= i < |bs|
  {
    var b := bs[i];
    var t := Taken(b.size, total);
    if t == b.size then bs[i := b.(used := true)]
    else bs[..i] + [Block(b.addr, b.size - t, false), Block(b.addr + b.size - t, t, true)] + bs[i + 1..]
  }

  /** Position of the block that Carve handed out. */
  function CarvedAt(bs: seq<Block>, i: int, total: int): int
    requires 0 <= i < |bs|
  {
    if Taken(bs[i].size, total) == bs[i].size then i else i + 1
  }

  /** First and last block of the merge around i. */
  function Left(bs: seq<Block>, i: int): (l: int)
    requires 0 < i < |bs|
  {
    if bs[i - 1].used then i else i - 1
  }

  function Right(bs: seq<Block>, i: int): (r: int)
    requires 0 < i < |bs|
    ensures i <= r < |bs|
  {
    if i + 1 < |bs| && !bs[i + 1].used then i + 1 else i
  }

  /** Blocks l..r become one free block. */
  function Merge(bs: seq<Block>, l: int, r: int): seq<Block>
    requires 0 <= l <= r < |bs|
  {
    bs[..l] + [Block(bs[l].addr, bs[r].End() - bs[l].addr, false)] + bs[r + 1..]
  }

  /** Block i becomes free and is merged with the free blocks on either side. */
  function Release(bs: seq<Block>, i: int): seq<Block>
    requires 0 < i < |bs|
  {
    Merge(bs, Left(bs, i), Right(bs, i))
  }

  /** Address of the block that Carve handed out: the top end of block i. */
  function CarvedAddr(bs: seq<Block>, i: int, total: int): int
    requires 0 <= i < |bs|
  {
    bs[i].End() - Taken(bs[i].size, total)
  }

  /** cs is bs with block i cut in two. */
  ghost predicate Cut(bs: seq<Block>, cs: seq<Block>, i: int, y: Block, z: Block) {
    && 0 <= i < |bs| && |cs| == |bs| + 1
    && cs[i] == y && cs[i + 1] == z
    && (forall k :: 0 <= k < i ==> cs[k] == bs[k])
    && (forall k :: i + 2 <= k < |cs| ==> cs[k] == bs[k - 1])
  }

  lemma CarveCuts(bs: seq<Block>, i: int, total: int)
    requires 0 <= i < |bs| && Taken(bs[i].size, total) != bs[i].size
    ensures var b, t := bs[i], Taken(bs[i].size, total);
            Cut(bs, Carve(bs, i, total), i, Block(b.addr, b.size - t, false), Block(b.addr + b.size - t, t, true))
  {
    hide Cut, Taken;
    var b, t := bs[i], Taken(bs[i].size, total);
    ConcatCuts(bs, i, Block(b.addr, b.size - t, false), Block(b.addr + b.size - t, t, true));
  }

  lemma ConcatCuts(bs: seq<Block>, i: int, y: Block, z: Block)
    requires 0 <= i < |bs|
    ensures Cut(bs, bs[..i] + [y, z] + bs[i + 1..], i, y, z)
  {
  }

  lemma CutTiles(bs: seq<Block>, cs: seq<Block>, lo: int, hi: int, i: int, y: Block, z: Block)
    requires Tiles(bs, lo, hi) && Cut(bs, cs, i, y, z)
    requires y.addr == bs[i].addr && y.End() == z.addr && z.End() == bs[i].End()
    ensures Tiles(cs, lo, hi)
  {
    forall k, l | 0 <= k && l == k + 1 && l < |cs|
      ensures cs[k].End() == cs[l].addr
    {
      if k < i {
        assert bs[k].End() == bs[k + 1].addr;
      } else if i < k {
        assert bs[k - 1].End() == bs[k].addr;
      }
    }
  }

  lemma CutSizes(bs: seq<Block>, cs: seq<Block>, i: int, y: Block, z: Block)
    requires SizesOk(bs) && Cut(bs, cs, i, y, z) && SizesOk([y, z])
    ensures SizesOk(cs)
  {
    assert [y, z][0] == y && [y, z][1] == z;
  }

  lemma CutCoalesced(bs: seq<Block>, cs: seq<Block>, i: int, y: Block, z: Block)
    requires Coalesced(bs) && Cut(bs, cs, i, y, z) && !bs[i].used && z.used
    ensures Coalesced(cs)
  {
    forall k, l | 0 <= k && l == k + 1 && l < |cs|
      ensures cs[k].used || cs[l].used
    {
      if k < i {
        Adjacent(bs, k);
      } else if i + 1 < k {
        Adjacent(bs, k - 1);
      }
    }
  }

  lemma CarveWellFormed(bs: seq<Block>, lo: int, hi: int, i: int, total: int)
    requires WellFormed(bs, lo, hi) && Eligible(bs, i, total)
    requires total >= FREE_HEADER && total % 4 == 0
    ensures WellFormed(Carve(bs, i, total), lo, hi)
    ensures var j := CarvedAt(bs, i, total);
            && 0 < j < |Carve(bs, i, total)|
            && Carve(bs, i, total)[j] == Block(CarvedAddr(bs, i, total), Taken(bs[i].size, total), true)
  {
    var b, t := bs[i], Taken(bs[i].size, total);
    if t == b.size {
      WholeWellFormed(bs, lo, hi, i);
    } else {
      var y, z, cs := Block(b.addr, b.size - t, false), Block(b.addr + b.size - t, t, true), Carve(bs, i, total);
      hide Carve, Tiles, SizesOk, Coalesced;
      CarveCuts(bs, i, total);
      CutTiles(bs, cs, lo, hi, i, y, z);
      PairSizes(bs, i, t, y, z);
      CutSizes(bs, cs, i, y, z);
      CutCoalesced(bs, cs, i, y, z);
    }
  }

  lemma PairSizes(bs: seq<Block>, i: int, t: int, y: Block, z: Block)
    requires SizesOk(bs) && 0 <= i < |bs| && t >= FREE_HEADER && t % 4 == 0 && bs[i].size >= t + FREE_HEADER
    requires y.size == bs[i].size - t && z.size == t
    ensures SizesOk([y, z])
  {
  }

  /** A block handed out as a whole is never the head block. */
  lemma WholeWellFormed(bs: seq<Block>, lo: int, hi: int, i: int)
    requires WellFormed(bs, lo, hi) && 0 < i < |bs|
    ensures WellFormed(bs[i := bs[i].(used := true)], lo, hi)
  {
    var cs := bs[i := bs[i].(used := true)];
    assert cs[|cs| - 1].End() == bs[|bs| - 1].End();
  }

  /** A block is eligible exactly if it is free and large enough and handing it out leaves the arena in order. */
  lemma EligibleExactly(bs: seq<Block>, lo: int, hi: int, i: int, total: int)
    requires WellFormed(bs, lo, hi) && total >= FREE_HEADER && total % 4 == 0
    ensures Eligible(bs, i, total) <==>
      0 <= i < |bs| && !bs[i].used && bs[i].size >= total && WellFormed(Carve(bs, i, total), lo, hi)
  {
    hide Tiles, SizesOk, Coalesced;
    if Eligible(bs, i, total) {
      CarveWellFormed(bs, lo, hi, i, total);
    }
  }

  lemma MergeAt(bs: seq<Block>, l: int, r: int, k: int)
    requires 0 <= l <= r < |bs| && 0 <= k < |Merge(bs, l, r)|
    ensures |Merge(bs, l, r)| == |bs| - (r - l)
    ensures Merge(bs, l, r)[k] == if k < l then bs[k]
                                  else if k == l then Block(bs[l].addr, bs[r].End() - bs[l].addr, false)
                                  else bs[k + (r - l)]
  {
  }

  lemma Fours(x: int, y: int)
    requires x % 4 == 0 && y % 4 == 0
    ensures (x + y) % 4 == 0
  {
  }

  /** A merged group covers the same addresses as its members. */
  lemma MergedSize(bs: seq<Block>, lo: int, hi: int, l: int, r: int)
    requires Tiles(bs, lo, hi) && SizesOk(bs) && 0 <= l <= r < |bs| && r <= l + 2
    ensures bs[r].End() - bs[l].addr == bs[l].size + (if l < r then bs[r].size else 0)
                                        + (if l + 1 < r then bs[l + 1].size else 0)
    ensures bs[r].End() - bs[l].addr >= FREE_HEADER && (bs[r].End() - bs[l].addr) % 4 == 0
  {
    var x, y, z := bs[l].size, if l < r then bs[r].size else 0, if l + 1 < r then bs[l + 1].size else 0;
    Fours(x, y);
    Fours(x + y, z);
    if l < r {
      assert bs[l].End() == bs[l + 1].addr;
    }
    if l + 1 < r {
      assert bs[l + 1].End() == bs[r].addr;
    }
  }

  lemma MergeTiles(bs: seq<Block>, lo: int, hi: int, l: int, r: int)
    requires WellFormed(bs, lo, hi) && 0 <= l <= r < |bs| && r <= l + 2
    ensures Tiles(Merge(bs, l, r), lo, hi)
  {
  }

  lemma MergeSizes(bs: seq<Block>, lo: int, hi: int, l: int, r: int)
    requires WellFormed(bs, lo, hi) && 0 <= l <= r < |bs| && r <= l + 2
    ensures SizesOk(Merge(bs, l, r))
  {
    MergedSize(bs, lo, hi, l, r);
    var cs, d := Merge(bs, l, r), r - l;
    assert |cs| == |bs| - d;
    forall k | 0 <= k < |cs|
      ensures cs[k] == if k < l then bs[k] else if k == l then cs[l] else bs[k + d]
    {
      MergeAt(bs, l, r, k);
    }
  }

  lemma MergeCoalesced(bs: seq<Block>, lo: int, hi: int, l: int, r: int)
    requires WellFormed(bs, lo, hi) && 0 <= l <= r < |bs| && r <= l + 2
    requires l > 0 ==> bs[l - 1].used
    requires r + 1 < |bs| ==> bs[r + 1].used
    ensures Coalesced(Merge(bs, l, r)) && !Merge(bs, l, r)[0].used
  {
  }

  lemma ReleaseWellFormed(bs: seq<Block>, lo: int, hi: int, i: int)
    requires WellFormed(bs, lo, hi) && 0 < i < |bs| && bs[i].used
    ensures WellFormed(Release(bs, i), lo, hi)
  {
    var l, r := Left(bs, i), Right(bs, i);
    MergeTiles(bs, lo, hi, l, r);
    MergeSizes(bs, lo, hi, l, r);
    MergeCoalesced(bs, lo, hi, l, r);
  }

  /** After a carve, the block to release has no free neighbour beyond its own remainder. */
  lemma CarvedNeighbours(bs: seq<Block>, i: int, total: int)
    requires Coalesced(bs) && Eligible(bs, i, total) && total > 0
    ensures var j, cs := CarvedAt(bs, i, total), Carve(bs, i, total);
            && (0 < j ==> Left(cs, j) == i && Right(cs, j) == j)
            && |cs| == |bs| + j - i && (j == i ==> i > 0)
            && cs[..i] == bs[..i] && cs[j + 1..] == bs[i + 1..]
            && cs[i].addr == bs[i].addr && cs[j].End() == bs[i].End()
  {
  }

  /** Round trip: releasing the block an allocation handed out restores the arena exactly. */
  lemma ReleaseUndoesCarve(bs: seq<Block>, lo: int, hi: int, i: int, total: int)
    requires WellFormed(bs, lo, hi) && Eligible(bs, i, total)
    requires total >= FREE_HEADER && total % 4 == 0
    ensures 0 < CarvedAt(bs, i, total) < |Carve(bs, i, total)|
    ensures Release(Carve(bs, i, total), CarvedAt(bs, i, total)) == bs
  {
    CarvedNeighbours(bs, i, total);
    var cs, j := Carve(bs, i, total), CarvedAt(bs, i, total);
    var a, c := bs[..i], bs[i + 1..];
    assert Release(cs, j) == a + [bs[i]] + c;
    assert bs == a + [bs[i]] + c;
  }

  // ---------------------------------------------------------------- accounting

  function SumUsed(bs: seq<Block>): int {
    if bs == [] then 0 else SumUsed(bs[..|bs| - 1]) + (if bs[|bs| - 1].used then bs[|bs| - 1].size else 0)
  }

  lemma {:induction false} SumUsedConcat(a: seq<Block>, b: seq<Block>)
    ensures SumUsed(a + b) == SumUsed(a) + SumUsed(b)
    decreases |b|
  {
    if b == [] {
      assert a + b == a;
    } else {
      SumUsedConcat(a, b[..|b| - 1]);
      assert (a + b)[..|a + b| - 1] == a + b[..|b| - 1];
    }
  }

  lemma SumUsedThree(a: seq<Block>, g: seq<Block>, c: seq<Block>)
    ensures SumUsed(a + g + c) == SumUsed(a) + SumUsed(g) + SumUsed(c)
  {
    hide SumUsed;
    SumUsedConcat(a + g, c);
    SumUsedConcat(a, g);
  }

  lemma SumUsedOne(b: Block)
    ensures SumUsed([b]) == if b.used then b.size else 0
  {
  }

  /** An allocation adds exactly the bytes taken to the live total, a release removes the block's size. */
  lemma CarveAccounting(bs: seq<Block>, i: int, total: int)
    requires 0 <= i < |bs| && !bs[i].used
    ensures SumUsed(Carve(bs, i, total)) == SumUsed(bs) + Taken(bs[i].size, total)
  {
    hide SumUsed;
    var b, t := bs[i], Taken(bs[i].size, total);
    var a, c := bs[..i], bs[i + 1..];
    SumUsedThree(a, [b], c);
    SumUsedOne(b);
    Split(bs, i);
    if t == b.size {
      SumUsedThree(a, [b.(used := true)], c);
      SumUsedOne(b.(used := true));
      assert bs[i := b.(used := true)] == a + [b.(used := true)] + c;
    } else {
      var y, z := Block(b.addr, b.size - t, false), Block(b.addr + b.size - t, t, true);
      SumUsedThree(a, [y] + [z], c);
      SumUsedConcat([y], [z]);
      SumUsedOne(y);
      SumUsedOne(z);
      assert [y] + [z] == [y, z];
    }
  }

  lemma {:induction false} SumUsedFree(a: seq<Block>)
    requires forall k :: 0 <= k < |a| ==> !a[k].used
    ensures SumUsed(a) == 0
  {
    if a != [] {
      SumUsedFree(a[..|a| - 1]);
    }
  }

  lemma MergeAccounting(bs: seq<Block>, l: int, r: int)
    requires 0 <= l <= r < |bs|
    ensures SumUsed(Merge(bs, l, r)) == SumUsed(bs) - SumUsed(bs[l..r + 1])
  {
    hide SumUsed;
    var a, g, c := bs[..l], bs[l..r + 1], bs[r + 1..];
    var m := Block(bs[l].addr, bs[r].End() - bs[l].addr, false);
    SumUsedThree(a, [m], c);
    SumUsedOne(m);
    SumUsedThree(a, g, c);
    assert bs == a + g + c;
  }

  lemma GroupSum(bs: seq<Block>, l: int, i: int, r: int)
    requires 0 <= l <= i <= r < |bs| && bs[i].used
    requires forall k :: l <= k <= r && k != i ==> !bs[k].used
    ensures SumUsed(bs[l..r + 1]) == bs[i].size
  {
    hide SumUsed;
    var a, c := bs[l..i], bs[i + 1..r + 1];
    SumUsedThree(a, [bs[i]], c);
    SumUsedOne(bs[i]);
    SumUsedFree(a);
    SumUsedFree(c);
    assert bs[l..r + 1] == a + [bs[i]] + c;
  }

  lemma ReleaseAccounting(bs: seq<Block>, i: int)
    requires 0 < i < |bs| && bs[i].used
    ensures SumUsed(Release(bs, i)) == SumUsed(bs) - bs[i].size
  {
    hide SumUsed;
    var l, r := Left(bs, i), Right(bs, i);
    MergeAccounting(bs, l, r);
    GroupSum(bs, l, i, r);
  }

  // ---------------------------------------------------------------- runs

  datatype Command = Request(size: nat) | Return(addr: int)

  /** Position of the live block whose header is at `addr`, or -1. */
  function Find(bs: seq<Block>, addr: int): (i: int)
    ensures -1 <= i < |bs|
    ensures i >= 0 ==> bs[i].used && bs[i].addr == addr
    ensures i < 0 ==> forall k :: 0 <= k < |bs| ==> !(bs[k].used && bs[k].addr == addr)
  {
    if bs == [] then -1
    else if bs[|bs| - 1].used && bs[|bs| - 1].addr == addr then |bs| - 1
    else Find(bs[..|bs| - 1], addr)
  }

  /** One legal step of a client: an allocation that succeeds or fails, or the release of a live block. */
  ghost predicate Step(bs: seq<Block>, c: Command, cs: seq<Block>) {
    match c
    case Request(n) =>
      || (exists i :: BestFit(bs, i, TotalSize(n)) && cs == Carve(bs, i, TotalSize(n)))
      || ((forall i :: !Eligible(bs, i, TotalSize(n))) && cs == bs)
    case Return(a) =>
      var i := Find(bs, a);
      0 < i && cs == Release(bs, i)
  }

  ghost predicate Run(states: seq<seq<Block>>, cmds: seq<Command>) {
    && |states| == |cmds| + 1
    && (forall k :: 0 <= k < |cmds| ==> Step(states[k], cmds[k], states[k + 1]))
  }

  lemma StepWellFormed(bs: seq<Block>, c: Command, cs: seq<Block>, lo: int, hi: int)
    requires WellFormed(bs, lo, hi) && Step(bs, c, cs)
    ensures WellFormed(cs, lo, hi)
  {
    match c
    case Request(n) =>
      if i :| BestFit(bs, i, TotalSize(n)) && cs == Carve(bs, i, TotalSize(n)) {
        CarveWellFormed(bs, lo, hi, i, TotalSize(n));
      }
    case Return(a) =>
      ReleaseWellFormed(bs, lo, hi, Find(bs, a));
  }

  /** The structural invariant holds after every prefix of every run from a fresh arena. */
  lemma {:induction false} RunWellFormed(states: seq<seq<Block>>, cmds: seq<Command>, lo: int, hi: int, k: nat)
    requires Run(states, cmds) && k <= |cmds|
    requires states[0] == [Block(lo, hi - lo, false)] && hi - lo >= FREE_HEADER && (hi - lo) % 4 == 0
    ensures WellFormed(states[k], lo, hi)
  {
    if k > 0 {
      RunWellFormed(states, cmds, lo, hi, k - 1);
      StepWellFormed(states[k - 1], cmds[k - 1], states[k], lo, hi);
    }
  }

  /**
   Whatever was allocated and in whatever order it was freed: once no block is live,
   the arena is the single initial block again.
   */
  lemma AllFreedRestoresArena(states: seq<seq<Block>>, cmds: seq<Command>, lo: int, hi: int)
    requires Run(states, cmds)
    requires states[0] == [Block(lo, hi - lo, false)] && hi - lo >= FREE_HEADER && (hi - lo) % 4 == 0
    requires forall i :: 0 <= i < |states[|cmds|]| ==> !states[|cmds|][i].used
    ensures states[|cmds|] == states[0]
  {
    RunWellFormed(states, cmds, lo, hi, |cmds|);
    var bs := states[|cmds|];
    if |bs| > 1 {
      Adjacent(bs, 0);
      assert false;
    }
  }
}
