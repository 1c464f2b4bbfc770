/**
 The heap's pointer code: a doubly linked, address-ordered free list threaded through the
 blocks of one arena, searched for the best fit and coalesced on release.

 Memory is word-addressed: mem[a] is the 32-bit word stored at byte address a. The methods
 follow the links in memory; the ghost block sequence says what the memory stands for.
 */
module Heap {
  import opened HeapBlocks

  const LIST_PATTERN: int := 0xA55AA55A
  const ALLOCATED_PATTERN: int := 0x83388338
  const FREE_PATTERN: int := 0xF00FF00F
  const NULL: int := 0
  const RSV_TAIL_SIZE: int := 0x10

  // Offsets inside a block header (struct mblock_free; mblock_used shares the first three).
  const CHECK: int := 0
  const SIZE: int := 4
  const RETURN: int := 8
  const NEXT: int := 12
  const PREVIOUS: int := 16

  // ---------------------------------------------------------------- the free list

  function Frees(bs: seq<Block>): seq<Block> {
    if bs == [] then [] else Frees(bs[..|bs| - 1]) + (if bs[|bs| - 1].used then [] else [bs[|bs| - 1]])
  }

  lemma {:induction false} FreesConcat(a: seq<Block>, b: seq<Block>)
    ensures Frees(a + b) == Frees(a) + Frees(b)
    decreases |b|
  {
    if b == [] {
      assert a + b == a;
    } else {
      FreesConcat(a, b[..|b| - 1]);
      assert (a + b)[..|a + b| - 1] == a + b[..|b| - 1];
    }
  }

  lemma FreesThree(a: seq<Block>, x: Block, c: seq<Block>)
    ensures Frees(a + [x] + c) == Frees(a) + (if x.used then [] else [x]) + Frees(c)
  {
    FreesConcat(a + [x], c);
    FreesConcat(a, [x]);
    assert [x][..0] == [];
  }

  lemma FreesSplit(bs: seq<Block>, i: int)
    requires 0 <= i < |bs|
    ensures Frees(bs) == Frees(bs[..i]) + (if bs[i].used then [] else [bs[i]]) + Frees(bs[i + 1..])
  {
    hide Frees;
    FreesThree(bs[..i], bs[i], bs[i + 1..]);
    Split(bs, i);
  }

  lemma FreesUpTo(bs: seq<Block>, i: int)
    requires 0 < i <= |bs|
    ensures Frees(bs[..i]) == Frees(bs[..i - 1]) + (if bs[i - 1].used then [] else [bs[i - 1]])
  {
    assert bs[..i][..i - 1] == bs[..i - 1];
  }

  lemma FreesFrom(bs: seq<Block>, i: int)
    requires 0 <= i < |bs|
    ensures Frees(bs[i..]) == (if bs[i].used then [] else [bs[i]]) + Frees(bs[i + 1..])
  {
    hide Frees;
    FreesSplit(bs[i..], 0);
    FreesNone(bs[i..][..0]);
    assert bs[i..][1..] == bs[i + 1..];
  }

  lemma FreesNone(bs: seq<Block>)
    requires |bs| == 0
    ensures Frees(bs) == []
  {
  }

  lemma {:induction false} FreesMembers(bs: seq<Block>)
    ensures forall b :: b in Frees(bs) <==> b in bs && !b.used
  {
    if bs != [] {
      FreesMembers(bs[..|bs| - 1]);
      assert bs == bs[..|bs| - 1] + [bs[|bs| - 1]];
    }
  }

  /** The free list is in address order, and no two of its members touch. */
  lemma {:induction false} FreesSorted(bs: seq<Block>, lo: int, hi: int, n: nat)
    requires Tiles(bs, lo, hi) && SizesOk(bs) && Coalesced(bs) && n <= |bs|
    ensures forall k, l :: 0 <= k < l < |Frees(bs[..n])| ==> Frees(bs[..n])[k].End() < Frees(bs[..n])[l].addr
  {
    if n > 0 {
      FreesSorted(bs, lo, hi, n - 1);
      assert bs[..n][..n - 1] == bs[..n - 1];
      FreesMembers(bs[..n - 1]);
      TilesAll(bs, lo, hi);
      forall b | b in Frees(bs[..n - 1]) && !bs[n - 1].used
        ensures b.End() < bs[n - 1].addr
      {
        var j :| 0 <= j < n - 1 && bs[j] == b;
        if j == n - 2 {
          Adjacent(bs, j);
          assert false;
        }
        assert bs[j].End() <= bs[n - 2].addr < bs[n - 2].End() <= bs[n - 1].addr;
      }
    }
  }

  /** The arena position of the k-th free block. */
  lemma {:induction false} FreeAt(bs: seq<Block>, k: int) returns (i: int)
    requires 0 <= k < |Frees(bs)|
    ensures 0 <= i < |bs| && !bs[i].used && bs[i] == Frees(bs)[k]
    ensures Frees(bs[..i]) == Frees(bs)[..k] && Frees(bs[i + 1..]) == Frees(bs)[k + 1..]
  {
    var n := |bs| - 1;
    if k == |Frees(bs[..n])| {
      i := n;
    } else {
      i := FreeAt(bs[..n], k);
      assert bs[..n][..i] == bs[..i];
    }
    FreesSplit(bs, i);
  }

  // ---------------------------------------------------------------- what the memory stands for

  /** The word at address a. */
  function At(m: seq<int>, a: int): int {
    if 0 <= a < |m| then m[a] else 0
  }

  ghost predicate Headers(m: seq<int>, bs: seq<Block>) {
    forall b :: b in bs ==>
      && 0 < b.addr && FREE_HEADER <= b.size && b.End() <= |m|
      && At(m, b.addr + SIZE) == b.size
      && At(m, b.addr + CHECK) == (if b.used then ALLOCATED_PATTERN else LIST_PATTERN)
  }

  ghost predicate InBounds(m: seq<int>, b: Block) {
    0 < b.addr && FREE_HEADER <= b.size && b.End() <= |m|
  }

  predicate Linked(m: seq<int>, x: Block, y: Block) {
    At(m, x.addr + NEXT) == y.addr && At(m, y.addr + PREVIOUS) == x.addr
  }

  /** Next and previous pointers agree with the list of free blocks, in both directions. */
  ghost predicate Links(m: seq<int>, fs: seq<Block>) {
    && (forall k :: 0 <= k < |fs| ==> InBounds(m, fs[k]))
    && (forall k, l :: 0 <= k && l == k + 1 && l < |fs| ==> Linked(m, fs[k], fs[l]))
    && (fs != [] ==> At(m, fs[0].addr + PREVIOUS) == NULL && At(m, fs[|fs| - 1].addr + NEXT) == NULL)
  }

  ghost predicate Represents(m: seq<int>, bs: seq<Block>) {
    Headers(m, bs) && Links(m, Frees(bs))
  }

  /** No used block's payload differs between two memories, block x excepted. */
  ghost predicate PayloadsKept(m: seq<int>, m': seq<int>, bs: seq<Block>, x: Block) {
    forall b, a :: b in bs && b.used && b != x && b.addr + USED_HEADER <= a < b.End() ==> At(m', a) == At(m, a)
  }

  /** Replacing free block i by ys changes the free list in one place. */
  lemma FreesReplace(bs: seq<Block>, i: int, ys: seq<Block>)
    requires 0 <= i < |bs| && !bs[i].used
    ensures Frees(bs) == Frees(bs[..i]) + [bs[i]] + Frees(bs[i + 1..])
    ensures Frees(bs[..i] + ys + bs[i + 1..]) == Frees(bs[..i]) + Frees(ys) + Frees(bs[i + 1..])
  {
    hide Frees;
    FreesSplit(bs, i);
    FreesConcat(bs[..i] + ys, bs[i + 1..]);
    FreesConcat(bs[..i], ys);
  }

  lemma FreesPair(y: Block, z: Block)
    ensures Frees([y, z]) == Frees([y]) + Frees([z])
  {
  }

  lemma FreesOne(y: Block)
    ensures Frees([y]) == if y.used then [] else [y]
  {
  }

  // ---------------------------------------------------------------- updating the memory

  ghost predicate Disjoint(bs: seq<Block>) {
    forall b, c :: b in bs && c in bs && b != c ==> b.End() <= c.addr || c.End() <= b.addr
  }

  lemma TilesDisjoint(bs: seq<Block>, lo: int, hi: int)
    requires Tiles(bs, lo, hi) && SizesOk(bs)
    ensures Disjoint(bs)
  {
    TilesAll(bs, lo, hi);
  }

  ghost predicate Sorted(fs: seq<Block>) {
    forall k, l :: 0 <= k < l < |fs| ==> fs[k].End() <= fs[l].addr
  }

  lemma FreesSortedAll(bs: seq<Block>, lo: int, hi: int)
    requires WellFormed(bs, lo, hi)
    ensures Sorted(Frees(bs))
  {
    FreesSorted(bs, lo, hi, |bs|);
    assert bs[..|bs|] == bs;
  }

  /** Address of the k-th free block, NULL outside the list. */
  function AddrAt(fs: seq<Block>, k: int): int {
    if 0 <= k < |fs| then fs[k].addr else NULL
  }

  /** m' differs from m only inside [lo, hi) and in the links p->next and n->previous. */
  ghost predicate Frame(m: seq<int>, m': seq<int>, lo: int, hi: int, p: int, n: int) {
    && |m'| == |m|
    && (forall a :: !(lo <= a < hi) && !(p != NULL && a == p + NEXT) && !(n != NULL && a == n + PREVIOUS)
          ==> At(m', a) == At(m, a))
  }

  /** gs keeps the first nf nodes of fs and, after nm (0 or 1) new ones, a tail of fs. */
  ghost predicate Respliced(fs: seq<Block>, gs: seq<Block>, nf: nat, nm: nat) {
    && nm <= 1 && nf <= |fs| && nf + nm <= |gs| <= |fs| + nm
    && (forall k :: 0 <= k < nf ==> gs[k] == fs[k])
    && (forall k :: nf + nm <= k < |gs| ==> gs[k] == fs[k + |fs| - |gs|])
  }

  /** Written links: front -> new node -> back, or front -> back when there is no new node. */
  ghost predicate Seam(m: seq<int>, gs: seq<Block>, nf: nat, nm: nat) {
    var p, n, x := AddrAt(gs, nf - 1), AddrAt(gs, nf + nm), AddrAt(gs, nf);
    && (p != NULL ==> At(m, p + NEXT) == if nm == 1 then x else n)
    && (n != NULL ==> At(m, n + PREVIOUS) == if nm == 1 then x else p)
    && (nm == 1 ==> nf < |gs| && InBounds(m, gs[nf]) && At(m, x + NEXT) == n && At(m, x + PREVIOUS) == p)
  }

  ghost predicate Spliced(m: seq<int>, m': seq<int>, fs: seq<Block>, gs: seq<Block>, nf: nat, nm: nat, lo: int,
                          hi: int) {
    && Links(m, fs) && Sorted(gs) && Respliced(fs, gs, nf, nm)
    && Frame(m, m', lo, hi, AddrAt(gs, nf - 1), AddrAt(gs, nf + nm)) && Seam(m', gs, nf, nm)
    && (forall k :: 0 <= k < |gs| && (k < nf || nf + nm <= k) ==> gs[k].End() <= lo || hi <= gs[k].addr)
  }

  lemma SplicedBounds(m: seq<int>, m': seq<int>, fs: seq<Block>, gs: seq<Block>, nf: nat, nm: nat, lo: int, hi: int,
                      k: int)
    requires Spliced(m, m', fs, gs, nf, nm, lo, hi) && 0 <= k < |gs|
    ensures InBounds(m', gs[k])
  {
  }

  lemma SplicedKeeps(m: seq<int>, m': seq<int>, fs: seq<Block>, gs: seq<Block>, nf: nat, nm: nat, lo: int, hi: int,
                     k: int)
    requires Spliced(m, m', fs, gs, nf, nm, lo, hi)
    requires 0 <= k < |gs| && (k < nf || nf + nm <= k)
    ensures k != nf - 1 ==> At(m', gs[k].addr + NEXT) == At(m, gs[k].addr + NEXT)
    ensures k != nf + nm ==> At(m', gs[k].addr + PREVIOUS) == At(m, gs[k].addr + PREVIOUS)
  {
  }

  /** Neighbours on one side of the seam were neighbours before. */
  lemma SplicedPair(fs: seq<Block>, gs: seq<Block>, nf: nat, nm: nat, m: seq<int>, k: int)
    requires Links(m, fs) && Respliced(fs, gs, nf, nm)
    requires 0 <= k < |gs| - 1 && (k + 1 < nf || nf + nm <= k)
    ensures Linked(m, gs[k], gs[k + 1])
  {
    var d := if k < nf then 0 else |fs| - |gs|;
    assert Linked(m, fs[k + d], fs[k + 1 + d]);
  }

  lemma SplicedLinked(m: seq<int>, m': seq<int>, fs: seq<Block>, gs: seq<Block>, nf: nat, nm: nat, lo: int, hi: int,
                      k: int)
    requires Spliced(m, m', fs, gs, nf, nm, lo, hi) && 0 <= k < |gs| - 1
    ensures Linked(m', gs[k], gs[k + 1])
  {
    hide Links, Frame, InBounds, Sorted;
    if k + 1 < nf || nf + nm <= k {
      hide Respliced, Seam;
      SplicedKeeps(m, m', fs, gs, nf, nm, lo, hi, k);
      SplicedKeeps(m, m', fs, gs, nf, nm, lo, hi, k + 1);
      SplicedPair(fs, gs, nf, nm, m, k);
    } else {
      SplicedBounds(m, m', fs, gs, nf, nm, lo, hi, k);
      SplicedBounds(m, m', fs, gs, nf, nm, lo, hi, k + 1);
      SeamLinked(m', gs, nf, nm, k);
    }
  }

  /** The links at the seam itself. */
  lemma SeamLinked(m: seq<int>, gs: seq<Block>, nf: nat, nm: nat, k: int)
    requires Seam(m, gs, nf, nm) && nm <= 1 && 0 <= k < |gs| - 1 && nf <= k + 1 && k < nf + nm
    requires InBounds(m, gs[k]) && InBounds(m, gs[k + 1])
    ensures Linked(m, gs[k], gs[k + 1])
  {
  }

  /** Code that writes inside [lo, hi) and the links at one seam turns list fs into list gs. */
  lemma SpliceLinks(m: seq<int>, m': seq<int>, fs: seq<Block>, gs: seq<Block>, nf: nat, nm: nat, lo: int, hi: int)
    requires Spliced(m, m', fs, gs, nf, nm, lo, hi)
    ensures Links(m', gs)
  {
    forall k | 0 <= k < |gs|
      ensures InBounds(m', gs[k])
    {
      SplicedBounds(m, m', fs, gs, nf, nm, lo, hi, k);
    }
    forall k, l | 0 <= k && l == k + 1 && l < |gs|
      ensures Linked(m', gs[k], gs[l])
    {
      SplicedLinked(m, m', fs, gs, nf, nm, lo, hi, k);
    }
    if gs != [] {
      SpliceFirst(m, m', fs, gs, nf, nm, lo, hi);
      SpliceLast(m, m', fs, gs, nf, nm, lo, hi);
    }
  }

  lemma SpliceFirst(m: seq<int>, m': seq<int>, fs: seq<Block>, gs: seq<Block>, nf: nat, nm: nat, lo: int, hi: int)
    requires Spliced(m, m', fs, gs, nf, nm, lo, hi) && gs != []
    ensures At(m', gs[0].addr + PREVIOUS) == NULL
  {
    hide Frame, Sorted, Linked;
    SplicedBounds(m, m', fs, gs, nf, nm, lo, hi, 0);
    if nf > 0 {
      SplicedKeeps(m, m', fs, gs, nf, nm, lo, hi, 0);
    }
  }

  lemma SpliceLast(m: seq<int>, m': seq<int>, fs: seq<Block>, gs: seq<Block>, nf: nat, nm: nat, lo: int, hi: int)
    requires Spliced(m, m', fs, gs, nf, nm, lo, hi) && gs != []
    ensures At(m', gs[|gs| - 1].addr + NEXT) == NULL
  {
    hide Frame, Sorted, Linked;
    SplicedBounds(m, m', fs, gs, nf, nm, lo, hi, |gs| - 1);
    if nf + nm < |gs| {
      SplicedKeeps(m, m', fs, gs, nf, nm, lo, hi, |gs| - 1);
    }
  }

  /** m' holds headers for ys in place of blocks l..r, having written only there and at one seam. */
  lemma ReplaceHeaders(m: seq<int>, m': seq<int>, bs: seq<Block>, lo: int, hi: int, l: int, r: int, ys: seq<Block>,
                       p: int, n: int)
    requires Headers(m, bs) && Tiles(bs, lo, hi) && SizesOk(bs) && 0 <= l <= r < |bs|
    requires Frame(m, m', bs[l].addr, bs[r].End(), p, n) && Headers(m', ys)
    requires p != NULL ==> exists b :: b in bs && b.addr == p
    requires n != NULL ==> exists b :: b in bs && b.addr == n
    ensures Headers(m', bs[..l] + ys + bs[r + 1..])
  {
    hide Tiles, SizesOk;
    TilesDisjoint(bs, lo, hi);
    TilesAll(bs, lo, hi);
    var cs := bs[..l] + ys + bs[r + 1..];
    forall b | b in cs
      ensures b in ys || (b in bs && (b.End() <= bs[l].addr || bs[r].End() <= b.addr))
    {
      assert b in ys || b in bs[..l] || b in bs[r + 1..];
    }
  }

  /** A used block other than x lies outside the range l..r, which holds no other used block. */
  lemma UsedOutside(bs: seq<Block>, lo: int, hi: int, x: Block, l: int, r: int, b: Block)
    requires Tiles(bs, lo, hi) && SizesOk(bs) && 0 <= l <= r < |bs|
    requires forall k :: l <= k <= r && bs[k].used ==> bs[k] == x
    requires b in bs && b.used && b != x
    ensures b.End() <= bs[l].addr || bs[r].End() <= b.addr
  {
    hide Tiles, SizesOk;
    TilesAll(bs, lo, hi);
    var k :| 0 <= k < |bs| && bs[k] == b;
  }

  /** A link field of a free block is no part of a used block. */
  lemma LinkOutside(bs: seq<Block>, b: Block, p: int, a: int)
    requires Disjoint(bs) && SizesOk(bs) && b in bs && b.used && b.addr <= a < b.End()
    requires exists c :: c in bs && !c.used && c.addr == p
    ensures a != p + NEXT && a != p + PREVIOUS
  {
    var c :| c in bs && !c.used && c.addr == p;
    var k :| 0 <= k < |bs| && bs[k] == c;
    assert c.size >= FREE_HEADER;
  }

  /** ... and leaves every payload outside the range as it was, when p and n are free blocks. */
  lemma FramePayloads(m: seq<int>, m': seq<int>, bs: seq<Block>, lo: int, hi: int, x: Block, l: int, r: int, p: int,
                      n: int)
    requires Headers(m, bs) && Tiles(bs, lo, hi) && SizesOk(bs) && 0 <= l <= r < |bs|
    requires Frame(m, m', bs[l].addr, bs[r].End(), p, n)
    requires forall k :: l <= k <= r && bs[k].used ==> bs[k] == x
    requires p != NULL ==> exists b :: b in bs && !b.used && b.addr == p
    requires n != NULL ==> exists b :: b in bs && !b.used && b.addr == n
    ensures PayloadsKept(m, m', bs, x)
  {
    hide Tiles, SizesOk, Headers, Disjoint;
    TilesDisjoint(bs, lo, hi);
    forall b, a | b in bs && b.used && b != x && b.addr + USED_HEADER <= a < b.End()
      ensures At(m', a) == At(m, a)
    {
      UsedOutside(bs, lo, hi, x, l, r, b);
      if p != NULL {
        LinkOutside(bs, b, p, a);
      }
      if n != NULL {
        LinkOutside(bs, b, n, a);
      }
    }
  }

  lemma AddrAtMember(bs: seq<Block>, k: int)
    ensures AddrAt(Frees(bs), k) != NULL ==> exists b :: b in bs && !b.used && b.addr == AddrAt(Frees(bs), k)
  {
    FreesMembers(bs);
    if 0 <= k < |Frees(bs)| {
      assert Frees(bs)[k] in Frees(bs);
    }
  }

  // ---------------------------------------------------------------- the three memory transitions

  lemma RespliceConcat(a: seq<Block>, x: seq<Block>, y: seq<Block>, c: seq<Block>)
    requires |y| <= 1
    ensures Respliced(a + x + c, a + y + c, |a|, |y|)
  {
  }

  lemma FreesOfThree(a: seq<Block>, x: seq<Block>, c: seq<Block>)
    ensures Frees(a + x + c) == Frees(a) + Frees(x) + Frees(c)
  {
    hide Frees;
    FreesConcat(a + x, c);
    FreesConcat(a, x);
  }

  /** Free list after blocks l..r became ys, ys being at most one free block and any used ones. */
  lemma ListAfter(bs: seq<Block>, l: int, r: int, ys: seq<Block>)
    requires 0 <= l <= r < |bs| && |Frees(ys)| <= 1
    ensures Frees(bs[..l] + ys + bs[r + 1..]) == Frees(bs[..l]) + Frees(ys) + Frees(bs[r + 1..])
    ensures Respliced(Frees(bs), Frees(bs[..l] + ys + bs[r + 1..]), |Frees(bs[..l])|, |Frees(ys)|)
  {
    hide Frees;
    var a, x, c := bs[..l], bs[l..r + 1], bs[r + 1..];
    FreesOfThree(a, ys, c);
    FreesOfThree(a, x, c);
    Thirds(bs, l, r + 1);
    RespliceConcat(Frees(a), Frees(x), Frees(ys), Frees(c));
  }

  lemma Thirds<T>(s: seq<T>, l: int, r: int)
    requires 0 <= l <= r <= |s|
    ensures s == s[..l] + s[l..r] + s[r..]
  {
  }

  lemma SeamMembers(bs: seq<Block>, gs: seq<Block>, nf: nat, nm: nat)
    requires Respliced(Frees(bs), gs, nf, nm)
    ensures AddrAt(gs, nf - 1) != NULL ==> exists b :: b in bs && !b.used && b.addr == AddrAt(gs, nf - 1)
    ensures AddrAt(gs, nf + nm) != NULL ==> exists b :: b in bs && !b.used && b.addr == AddrAt(gs, nf + nm)
  {
    AddrAtMember(bs, nf - 1);
    AddrAtMember(bs, nf + nm + |Frees(bs)| - |gs|);
  }

  /**
   Blocks l..r become ys: the code has written ys's headers, the links of the (at most one) new
   free node, and its neighbours' links to it, and nothing else outside the range.
   */
  ghost predicate Rewritten(m: seq<int>, m': seq<int>, bs: seq<Block>, l: int, r: int, ys: seq<Block>, gs: seq<Block>) {
    && 0 <= l <= r < |bs| && |Frees(ys)| <= 1
    && (var nf, nm := |Frees(bs[..l])|, |Frees(ys)|;
        && Headers(m', ys) && Seam(m', gs, nf, nm)
        && Frame(m, m', bs[l].addr, bs[r].End(), AddrAt(gs, nf - 1), AddrAt(gs, nf + nm)))
  }

  lemma RewrittenLinks(m: seq<int>, m': seq<int>, bs: seq<Block>, lo: int, hi: int, l: int, r: int, ys: seq<Block>,
                       gs: seq<Block>)
    requires WellFormed(bs, lo, hi) && Links(m, Frees(bs)) && Rewritten(m, m', bs, l, r, ys, gs)
    requires gs == Frees(bs[..l] + ys + bs[r + 1..]) && Sorted(gs)
    ensures Links(m', gs)
  {
    hide Frees;
    ListAfter(bs, l, r, ys);
    KeptOutside(bs, lo, hi, l, r, ys, gs);
    SpliceLinks(m, m', Frees(bs), gs, |Frees(bs[..l])|, |Frees(ys)|, bs[l].addr, bs[r].End());
  }

  lemma RewrittenHeaders(m: seq<int>, m': seq<int>, bs: seq<Block>, lo: int, hi: int, l: int, r: int, ys: seq<Block>,
                         gs: seq<Block>, x: Block)
    requires WellFormed(bs, lo, hi) && Headers(m, bs) && Rewritten(m, m', bs, l, r, ys, gs)
    requires gs == Frees(bs[..l] + ys + bs[r + 1..])
    requires forall k :: l <= k <= r && bs[k].used ==> bs[k] == x
    ensures Headers(m', bs[..l] + ys + bs[r + 1..]) && PayloadsKept(m, m', bs, x)
  {
    hide Frees, Headers, PayloadsKept, Frame, Seam, Tiles, SizesOk, Coalesced, Respliced;
    ListAfter(bs, l, r, ys);
    var nf, nm := |Frees(bs[..l])|, |Frees(ys)|;
    SeamMembers(bs, gs, nf, nm);
    ReplaceHeaders(m, m', bs, lo, hi, l, r, ys, AddrAt(gs, nf - 1), AddrAt(gs, nf + nm));
    FramePayloads(m, m', bs, lo, hi, x, l, r, AddrAt(gs, nf - 1), AddrAt(gs, nf + nm));
  }

  lemma Transition(m: seq<int>, m': seq<int>, bs: seq<Block>, lo: int, hi: int, l: int, r: int, ys: seq<Block>,
                   cs: seq<Block>, x: Block)
    requires WellFormed(bs, lo, hi) && Represents(m, bs) && Rewritten(m, m', bs, l, r, ys, Frees(cs))
    requires cs == bs[..l] + ys + bs[r + 1..] && WellFormed(cs, lo, hi)
    requires forall k :: l <= k <= r && bs[k].used ==> bs[k] == x
    ensures Represents(m', cs) && PayloadsKept(m, m', bs, x)
  {
    hide Frees, Headers, Links, PayloadsKept, Rewritten, WellFormed, Sorted;
    FreesSortedAll(cs, lo, hi);
    RewrittenLinks(m, m', bs, lo, hi, l, r, ys, Frees(cs));
    RewrittenHeaders(m, m', bs, lo, hi, l, r, ys, Frees(cs), x);
  }

  /** Free blocks in front of position l end before it, free blocks behind position r begin after it. */
  lemma FreesBefore(bs: seq<Block>, lo: int, hi: int, l: int)
    requires Tiles(bs, lo, hi) && SizesOk(bs) && 0 <= l < |bs|
    ensures forall b :: b in Frees(bs[..l]) ==> b.End() <= bs[l].addr
  {
    hide Frees;
    TilesAll(bs, lo, hi);
    FreesMembers(bs[..l]);
  }

  lemma FreesBehind(bs: seq<Block>, lo: int, hi: int, r: int)
    requires Tiles(bs, lo, hi) && SizesOk(bs) && 0 <= r < |bs|
    ensures forall b :: b in Frees(bs[r + 1..]) ==> bs[r].End() <= b.addr
  {
    hide Frees;
    TilesAll(bs, lo, hi);
    FreesMembers(bs[r + 1..]);
  }

  /** The kept free nodes lie outside the replaced range. */
  lemma KeptOutside(bs: seq<Block>, lo: int, hi: int, l: int, r: int, ys: seq<Block>, gs: seq<Block>)
    requires Tiles(bs, lo, hi) && SizesOk(bs) && 0 <= l <= r < |bs|
    requires gs == Frees(bs[..l]) + Frees(ys) + Frees(bs[r + 1..])
    ensures var nf, nm := |Frees(bs[..l])|, |Frees(ys)|;
            forall k :: 0 <= k < |gs| && (k < nf || nf + nm <= k)
              ==> gs[k].End() <= bs[l].addr || bs[r].End() <= gs[k].addr
  {
    hide Frees, Tiles, SizesOk;
    FreesBefore(bs, lo, hi, l);
    FreesBehind(bs, lo, hi, r);
    OuterMembers(Frees(bs[..l]), Frees(ys), Frees(bs[r + 1..]));
  }

  lemma OuterMembers(a: seq<Block>, y: seq<Block>, c: seq<Block>)
    ensures forall k :: 0 <= k < |a + y + c| && (k < |a| || |a| + |y| <= k)
              ==> (a + y + c)[k] in a || (a + y + c)[k] in c
  {
  }

  // ---------------------------------------------------------------- searching

  function SumSizes(fs: seq<Block>): int {
    if fs == [] then 0 else SumSizes(fs[..|fs| - 1]) + fs[|fs| - 1].size
  }

  /** Free and used bytes add up to the arena. */
  lemma {:induction false} FreePlusUsed(bs: seq<Block>, lo: int, hi: int, n: nat)
    requires Tiles(bs, lo, hi) && n <= |bs|
    ensures SumSizes(Frees(bs[..n])) + SumUsed(bs[..n]) == (if n == 0 then lo else bs[n - 1].End()) - lo
  {
    if n > 0 {
      FreePlusUsed(bs, lo, hi, n - 1);
      var p, b := bs[..n - 1], bs[n - 1];
      assert bs[..n][..n - 1] == p;
      assert n > 1 ==> bs[n - 2].End() == bs[n - 1].addr;
      var fs := Frees(p) + [b];
      assert fs[..|fs| - 1] == Frees(p);
      assert Frees(bs[..n]) == if b.used then Frees(p) else fs;
    }
  }

  lemma FreePlusUsedAll(bs: seq<Block>, lo: int, hi: int)
    requires WellFormed(bs, lo, hi)
    ensures SumSizes(Frees(bs)) + SumUsed(bs) == hi - lo
  {
    FreePlusUsed(bs, lo, hi, |bs|);
    assert bs[..|bs|] == bs;
  }

  ghost predicate EligibleNode(fs: seq<Block>, k: int, total: int) {
    0 <= k < |fs| && fs[k].size >= total && (fs[k].size >= total + FREE_HEADER || k > 0)
  }

  /** f is the best node among the first n, -1 when none is eligible. */
  ghost predicate BestSoFar(fs: seq<Block>, f: int, n: int, total: int) {
    && -1 <= f < n <= |fs|
    && (f >= 0 ==> EligibleNode(fs, f, total))
    && (forall k :: 0 <= k < n && EligibleNode(fs, k, total) ==>
          0 <= f && (fs[f].size < fs[k].size || (fs[f].size == fs[k].size && f <= k)))
  }

  lemma FreeIndex(bs: seq<Block>, j: int)
    requires 0 <= j < |bs| && !bs[j].used
    ensures var k := |Frees(bs[..j])|; k < |Frees(bs)| && Frees(bs)[k] == bs[j]
  {
    FreesSplit(bs, j);
  }

  lemma {:induction false} FreeIndexMonotone(bs: seq<Block>, i: int, j: int)
    requires 0 <= i <= j <= |bs|
    ensures |Frees(bs[..i])| <= |Frees(bs[..j])|
    decreases j
  {
    if i < j {
      FreeIndexMonotone(bs, i, j - 1);
      assert bs[..j][..j - 1] == bs[..j - 1];
    }
  }

  /** The head block is the list's first node, so only it has no predecessor. */
  lemma HeadIsFirst(bs: seq<Block>, i: int)
    requires 0 <= i < |bs| && !bs[0].used && !bs[i].used
    ensures i == 0 <==> |Frees(bs[..i])| == 0
  {
    if i > 0 {
      FreeIndexMonotone(bs, 1, i);
      assert bs[..1] == [bs[0]];
      FreesOne(bs[0]);
    }
  }

  /** The best node of the whole list is the best fitting block of the arena. */
  lemma BestNodeIsBestFit(bs: seq<Block>, lo: int, hi: int, f: int, i: int, total: int)
    requires WellFormed(bs, lo, hi) && BestSoFar(Frees(bs), f, |Frees(bs)|, total) && f >= 0
    requires 0 <= i < |bs| && !bs[i].used && bs[i] == Frees(bs)[f] && |Frees(bs[..i])| == f
    ensures BestFit(bs, i, total)
  {
    HeadIsFirst(bs, i);
    forall j | Eligible(bs, j, total)
      ensures bs[i].size < bs[j].size || (bs[i].size == bs[j].size && i <= j)
    {
      EligibleIsNode(bs, j, total);
      FreeIndex(bs, j);
      if j < i {
        FreeIndexMonotone(bs, j + 1, i);
        assert bs[..j + 1][..j] == bs[..j];
      }
    }
  }

  /** The arena block behind the chosen node. */
  lemma ChosenBlock(bs: seq<Block>, lo: int, hi: int, f: int, total: int) returns (i: int)
    requires WellFormed(bs, lo, hi) && BestSoFar(Frees(bs), f, |Frees(bs)|, total) && f >= 0
    ensures BestFit(bs, i, total) && AddrAt(Frees(bs), f) == bs[i].addr && Frees(bs)[f] == bs[i]
    ensures SumUsed(Carve(bs, i, total)) == SumUsed(bs) + Taken(bs[i].size, total)
  {
    i := FreeAt(bs, f);
    BestNodeIsBestFit(bs, lo, hi, f, i, total);
    CarveAccounting(bs, i, total);
  }

  lemma EligibleIsNode(bs: seq<Block>, j: int, total: int)
    requires bs != [] && !bs[0].used && Eligible(bs, j, total)
    ensures EligibleNode(Frees(bs), |Frees(bs[..j])|, total)
  {
    hide Frees;
    HeadIsFirst(bs, j);
    FreeIndex(bs, j);
  }

  lemma NoNodeNoFit(bs: seq<Block>, lo: int, hi: int, total: int)
    requires WellFormed(bs, lo, hi) && BestSoFar(Frees(bs), -1, |Frees(bs)|, total)
    ensures forall j :: !Eligible(bs, j, total)
  {
    hide Frees;
    forall j | Eligible(bs, j, total)
      ensures false
    {
      EligibleIsNode(bs, j, total);
    }
  }

  // ---------------------------------------------------------------- the two ways to hand out memory

  /** Memory after the tail of free block x became a used block of t bytes. */
  ghost predicate TailCut(m: seq<int>, m': seq<int>, x: Block, t: int) {
    && FREE_HEADER <= t && FREE_HEADER <= x.size - t && |m'| == |m|
    && (forall b :: b != x.addr + SIZE && !(x.End() - t <= b < x.End()) ==> At(m', b) == At(m, b))
    && At(m', x.addr + SIZE) == x.size - t
    && At(m', x.End() - t + SIZE) == t && At(m', x.End() - t + CHECK) == ALLOCATED_PATTERN
  }

  lemma SplitHeaders(m: seq<int>, m': seq<int>, bs: seq<Block>, i: int, t: int)
    requires Headers(m, bs) && 0 <= i < |bs| && !bs[i].used && TailCut(m, m', bs[i], t)
    ensures Headers(m', [Block(bs[i].addr, bs[i].size - t, false), Block(bs[i].End() - t, t, true)])
    ensures forall p, n :: Frame(m, m', bs[i].addr, bs[i].End(), p, n)
  {
  }

  /** Its own links still stand. */
  lemma SplitRewritten(m: seq<int>, m': seq<int>, bs: seq<Block>, lo: int, hi: int, i: int, t: int)
    requires WellFormed(bs, lo, hi) && Represents(m, bs) && 0 <= i < |bs| && !bs[i].used && TailCut(m, m', bs[i], t)
    ensures var y, z := Block(bs[i].addr, bs[i].size - t, false), Block(bs[i].End() - t, t, true);
            Rewritten(m, m', bs, i, i, [y, z], Frees(bs[..i] + [y, z] + bs[i + 1..]))
  {
    hide Frees;
    var y, z := Block(bs[i].addr, bs[i].size - t, false), Block(bs[i].End() - t, t, true);
    SplitList(bs, i, y, z);
    FreesSortedAll(bs, lo, hi);
    SplitSeam(m, m', Frees(bs), |Frees(bs[..i])|, y, t);
    SplitHeaders(m, m', bs, i, t);
  }

  lemma SplitList(bs: seq<Block>, i: int, y: Block, z: Block)
    requires 0 <= i < |bs| && !bs[i].used && !y.used && z.used
    ensures var f, fs := |Frees(bs[..i])|, Frees(bs);
            f < |fs| && fs[f] == bs[i] && Frees([y, z]) == [y] && Frees(bs[..i] + [y, z] + bs[i + 1..]) == fs[f := y]
  {
    hide Frees;
    FreesPair(y, z);
    FreesOne(y);
    FreesOne(z);
    FreesReplace(bs, i, [y, z]);
  }

  lemma UnlinkList(bs: seq<Block>, i: int, y: Block)
    requires 0 <= i < |bs| && !bs[i].used && y.used
    ensures var f, fs := |Frees(bs[..i])|, Frees(bs);
            f < |fs| && fs[f] == bs[i] && Frees([y]) == []
              && Frees(bs[..i] + [y] + bs[i + 1..]) == fs[..f] + fs[f + 1..]
  {
    hide Frees;
    FreesOne(y);
    FreesReplace(bs, i, [y]);
  }

  lemma SplitSeam(m: seq<int>, m': seq<int>, fs: seq<Block>, f: int, y: Block, t: int)
    requires Links(m, fs) && Sorted(fs) && 0 <= f < |fs| && y == Block(fs[f].addr, fs[f].size - t, false)
    requires TailCut(m, m', fs[f], t)
    ensures Seam(m', fs[f := y], f, 1)
  {
  }

  /** Free node i was unlinked and marked as used. */
  lemma UnlinkRewritten(m: seq<int>, m': seq<int>, bs: seq<Block>, lo: int, hi: int, i: int)
    requires WellFormed(bs, lo, hi) && Represents(m, bs) && 0 < i < |bs| && !bs[i].used
    requires var f := |Frees(bs[..i])|;
             var p, n := AddrAt(Frees(bs), f - 1), AddrAt(Frees(bs), f + 1);
             && Frame(m, m', bs[i].addr, bs[i].End(), p, n)
             && At(m', p + NEXT) == n && (n != NULL ==> At(m', n + PREVIOUS) == p)
             && At(m', bs[i].addr + CHECK) == ALLOCATED_PATTERN && At(m', bs[i].addr + SIZE) == bs[i].size
    ensures var y := bs[i].(used := true);
            Rewritten(m, m', bs, i, i, [y], Frees(bs[..i] + [y] + bs[i + 1..]))
  {
    hide Frees;
    var y := bs[i].(used := true);
    UnlinkList(bs, i, y);
    var fs, f := Frees(bs), |Frees(bs[..i])|;
    HeadIsFirst(bs, i);
    SplicedAddr(fs, f);
  }

  lemma SplicedAddr(fs: seq<Block>, f: int)
    requires 0 <= f < |fs|
    ensures AddrAt(fs[..f] + fs[f + 1..], f - 1) == AddrAt(fs, f - 1)
    ensures AddrAt(fs[..f] + fs[f + 1..], f) == AddrAt(fs, f + 1)
  {
  }

  // ---------------------------------------------------------------- taking memory back

  lemma LinkAt(m: seq<int>, fs: seq<Block>, k: int)
    requires Links(m, fs) && 0 <= k < |fs|
    ensures At(m, fs[k].addr + NEXT) == AddrAt(fs, k + 1) && At(m, fs[k].addr + PREVIOUS) == AddrAt(fs, k - 1)
  {
  }

  /** Free blocks before and behind used block i. */
  lemma FreedSides(bs: seq<Block>, lo: int, hi: int, i: int)
    requires WellFormed(bs, lo, hi) && 0 < i < |bs| && bs[i].used
    ensures var fs, k := Frees(bs), |Frees(bs[..i])|;
            && 0 < k <= |fs| && fs[..k] == Frees(bs[..i])
            && (forall j :: 0 <= j < k ==> fs[j].End() <= bs[i].addr)
            && (forall j :: k <= j < |fs| ==> bs[i].End() <= fs[j].addr)
  {
    hide Frees;
    var fs, k := Frees(bs), |Frees(bs[..i])|;
    FreesSplit(bs, i);
    HeadCounted(bs, i);
    FreesBefore(bs, lo, hi, i);
    FreesBehind(bs, lo, hi, i);
    hide WellFormed;
    assert forall j :: 0 <= j < k ==> fs[j] in Frees(bs[..i]);
    assert forall j :: k <= j < |fs| ==> fs[j] == Frees(bs[i + 1..])[j - k];
  }

  lemma HeadCounted(bs: seq<Block>, i: int)
    requires 0 < i <= |bs| && !bs[0].used
    ensures |Frees(bs[..i])| > 0
  {
    FreeIndexMonotone(bs, 1, i);
    assert bs[..1] == [bs[0]];
    FreesOne(bs[0]);
  }

  /** Where the search for used block i ends: the node before it touches it iff the block before it is free. */
  lemma FreedLeft(bs: seq<Block>, lo: int, hi: int, i: int)
    requires WellFormed(bs, lo, hi) && 0 < i < |bs| && bs[i].used
    ensures var fs, k := Frees(bs), |Frees(bs[..i])|;
            && 0 < k <= |fs|
            && (fs[k - 1].End() == bs[i].addr <==> !bs[i - 1].used)
            && (!bs[i - 1].used ==> fs[k - 1] == bs[i - 1])
  {
    var fs, k := Frees(bs), |Frees(bs[..i])|;
    FreedSides(bs, lo, hi, i);
    assert fs[k - 1] == Frees(bs[..i])[k - 1];
    if bs[i - 1].used {
      LastFreeEnds(bs, lo, hi, i);
    } else {
      assert bs[..i][..i - 1] == bs[..i - 1] && bs[..i][i - 1] == bs[i - 1];
      assert bs[i - 1].End() == bs[i].addr;
    }
  }

  /** With a used block in between, no earlier free block reaches block i. */
  lemma LastFreeEnds(bs: seq<Block>, lo: int, hi: int, i: int)
    requires WellFormed(bs, lo, hi) && 0 < i < |bs| && bs[i - 1].used
    ensures forall b :: b in Frees(bs[..i]) ==> b.End() < bs[i].addr
  {
    FreesMembers(bs[..i]);
    TilesAll(bs, lo, hi);
    forall b | b in Frees(bs[..i])
      ensures b.End() < bs[i].addr
    {
      var j :| 0 <= j < i && bs[j] == b;
      assert bs[j].End() <= bs[i - 1].addr < bs[i - 1].End() <= bs[i].addr;
    }
  }

  /** The block behind i is free exactly when the next node of the list starts there. */
  lemma FreedRight(bs: seq<Block>, lo: int, hi: int, i: int)
    requires WellFormed(bs, lo, hi) && 0 < i < |bs| && bs[i].used
    ensures var fs, k, r := Frees(bs), |Frees(bs[..i])|, Right(bs, i);
            && (r == i + 1 <==> k < |fs| && fs[k].addr == bs[i].End())
            && (r == i + 1 ==> fs[k] == bs[r])
  {
    hide Frees;
    var fs, k := Frees(bs), |Frees(bs[..i])|;
    FreesSplit(bs, i);
    if i + 1 < |bs| {
      FreesFrom(bs, i + 1);
      assert bs[i].End() == bs[i + 1].addr;
      if bs[i + 1].used {
        FreesBehind(bs, lo, hi, i + 1);
        assert bs[i + 1].size > 0;
        assert k < |fs| ==> fs[k] in Frees(bs[i + 2..]);
      }
    } else {
      FreesNone(bs[i + 1..]);
    }
  }

  /** The block sequence, seen from the free list, after block i was merged into its neighbours. */
  lemma ReleaseList(bs: seq<Block>, lo: int, hi: int, i: int)
    requires WellFormed(bs, lo, hi) && 0 < i < |bs| && bs[i].used
    ensures var l, r, fs, k := Left(bs, i), Right(bs, i), Frees(bs), |Frees(bs[..i])|;
            var b := Block(bs[l].addr, bs[r].End() - bs[l].addr, false);
            && |Frees(bs[..l])| == k - (i - l) && k + (r - i) <= |fs|
            && Frees([b]) == [b]
            && Frees(Release(bs, i)) == fs[..k - (i - l)] + [b] + fs[k + (r - i)..]
  {
    hide Frees;
    var l, r, fs, k := Left(bs, i), Right(bs, i), Frees(bs), |Frees(bs[..i])|;
    var b := Block(bs[l].addr, bs[r].End() - bs[l].addr, false);
    FreesOne(b);
    ReleaseSides(bs, i);
    FreesOfThree(bs[..l], [b], bs[r + 1..]);
    FreesSplit(bs, i);
    OuterParts(Frees(bs[..l]), if l < i then [bs[l]] else [], if i < r then [bs[r]] else [], Frees(bs[r + 1..]), fs);
  }

  lemma OuterParts<T>(a: seq<T>, x: seq<T>, y: seq<T>, c: seq<T>, s: seq<T>)
    requires s == (a + x) + [] + (y + c)
    ensures |s| == |a| + |x| + |y| + |c| && s[..|a|] == a && s[|a| + |x| + |y|..] == c
  {
  }

  lemma ReleaseSides(bs: seq<Block>, i: int)
    requires 0 < i < |bs|
    ensures var l, r := Left(bs, i), Right(bs, i);
            && Frees(bs[..i]) == Frees(bs[..l]) + (if l < i then [bs[l]] else [])
            && Frees(bs[i + 1..]) == (if i < r then [bs[r]] else []) + Frees(bs[r + 1..])
  {
    hide Frees;
    FreesUpTo(bs, i);
    if i + 1 < |bs| {
      FreesFrom(bs, i + 1);
    }
  }

  /** Free block b with its two links, its neighbours' links to it, and nothing else outside it. */
  ghost predicate NodeIn(m: seq<int>, m': seq<int>, b: Block, p: int, n: int) {
    && Headers(m', [b]) && Frame(m, m', b.addr, b.End(), p, n)
    && At(m', b.addr + NEXT) == n && At(m', b.addr + PREVIOUS) == p
    && (p != NULL ==> At(m', p + NEXT) == b.addr)
    && (n != NULL ==> At(m', n + PREVIOUS) == b.addr)
  }

  /** Everything a release writes: the node of the merged block. */
  ghost predicate MergedIn(m: seq<int>, m': seq<int>, bs: seq<Block>, i: int)
    requires 0 < i < |bs|
  {
    var l, r, fs, k := Left(bs, i), Right(bs, i), Frees(bs), |Frees(bs[..i])|;
    var b := Block(bs[l].addr, bs[r].End() - bs[l].addr, false);
    NodeIn(m, m', b, AddrAt(fs, k - (i - l) - 1), AddrAt(fs, k + (r - i)))
  }

  lemma SplicedAddrs(fs: seq<Block>, a: int, b: Block, c: int)
    requires 0 <= a <= c <= |fs|
    ensures var gs := fs[..a] + [b] + fs[c..];
            AddrAt(gs, a - 1) == AddrAt(fs, a - 1) && a < |gs| && gs[a] == b && AddrAt(gs, a + 1) == AddrAt(fs, c)
  {
  }

  lemma ReleaseNodes(bs: seq<Block>, lo: int, hi: int, i: int)
    requires WellFormed(bs, lo, hi) && 0 < i < |bs| && bs[i].used
    ensures var l, r, fs, k, gs := Left(bs, i), Right(bs, i), Frees(bs), |Frees(bs[..i])|, Frees(Release(bs, i));
            var b, nf := Block(bs[l].addr, bs[r].End() - bs[l].addr, false), |Frees(bs[..l])|;
            && nf == k - (i - l) && Frees([b]) == [b] && nf < |gs| && gs[nf] == b
            && AddrAt(gs, nf - 1) == AddrAt(fs, nf - 1) && AddrAt(gs, nf + 1) == AddrAt(fs, k + (r - i))
  {
    hide Frees;
    var l, r, fs, k := Left(bs, i), Right(bs, i), Frees(bs), |Frees(bs[..i])|;
    ReleaseList(bs, lo, hi, i);
    SplicedAddrs(fs, k - (i - l), Block(bs[l].addr, bs[r].End() - bs[l].addr, false), k + (r - i));
  }

  lemma ReleaseRewritten(m: seq<int>, m': seq<int>, bs: seq<Block>, lo: int, hi: int, i: int)
    requires WellFormed(bs, lo, hi) && 0 < i < |bs| && bs[i].used && MergedIn(m, m', bs, i)
    ensures var l, r := Left(bs, i), Right(bs, i);
            Rewritten(m, m', bs, l, r, [Block(bs[l].addr, bs[r].End() - bs[l].addr, false)], Frees(Release(bs, i)))
  {
    hide Frees, Frame, Tiles, SizesOk, Coalesced, Release;
    var l, r := Left(bs, i), Right(bs, i);
    var b := Block(bs[l].addr, bs[r].End() - bs[l].addr, false);
    ReleaseNodes(bs, lo, hi, i);
    assert b in [b];
  }

  lemma SumSizesNone()
    ensures forall fs :: |fs| == 0 ==> SumSizes(fs) == 0
  {
  }

  lemma SumSizesStep(fs: seq<Block>, k: int)
    requires 0 <= k < |fs|
    ensures SumSizes(fs[..k + 1]) == SumSizes(fs[..k]) + fs[k].size
  {
    assert fs[..k + 1][..k] == fs[..k];
  }

  /** One free header spanning the arena stands for the single initial block. */
  lemma FreshArena(m: seq<int>, lo: int, hi: int)
    requires 0 < lo && FREE_HEADER <= hi - lo && hi <= |m| && (hi - lo) % 4 == 0
    requires At(m, lo + SIZE) == hi - lo && At(m, lo + CHECK) == LIST_PATTERN
    requires At(m, lo + NEXT) == NULL && At(m, lo + PREVIOUS) == NULL
    ensures var bs := [Block(lo, hi - lo, false)]; WellFormed(bs, lo, hi) && Represents(m, bs) && SumUsed(bs) == 0
  {
    hide Frees, SumUsed;
    var b := Block(lo, hi - lo, false);
    FreesOne(b);
    SumUsedOne(b);
    assert b.size % 4 == 0;
  }

  lemma UpdateAsConcat(bs: seq<Block>, i: int, y: Block)
    requires 0 <= i < |bs|
    ensures bs[i := y] == bs[..i] + [y] + bs[i + 1..]
  {
  }

  lemma FreedFields(m: seq<int>, bs: seq<Block>, lo: int, hi: int, i: int)
    requires WellFormed(bs, lo, hi) && Represents(m, bs) && 0 <= i < |bs|
    ensures InBounds(m, bs[i]) && At(m, bs[i].addr + SIZE) == bs[i].size
  {
    assert bs[i] in bs;
  }

  /** The header of used block i was marked as freed; m is the memory before that. */
  ghost predicate Marked(m: seq<int>, m': seq<int>, bs: seq<Block>, lo: int, hi: int, i: int) {
    && WellFormed(bs, lo, hi) && Represents(m, bs) && 0 < i < |bs| && bs[i].used
    && |m'| == |m|
    && (forall a :: a != bs[i].addr + CHECK && a != bs[i].addr + RETURN ==> At(m', a) == At(m, a))
  }

  /** Where the walk stops: at the node block i extends, or between the nodes it belongs between. */
  ghost predicate Located(bs: seq<Block>, i: int, node: int, previous: int, touching: bool) {
    && 0 < i < |bs|
    && (var fs, k := Frees(bs), |Frees(bs[..i])|;
        && touching == !bs[i - 1].used
        && node == AddrAt(fs, if touching then k - 1 else k)
        && previous == AddrAt(fs, if touching then k - 2 else k - 1))
  }

  /** Nodes read as before the marking. */
  lemma MarkedNode(m: seq<int>, m': seq<int>, bs: seq<Block>, lo: int, hi: int, i: int, j: int)
    requires Marked(m, m', bs, lo, hi, i) && 0 <= j < |Frees(bs)|
    ensures var fs := Frees(bs);
            && InBounds(m', fs[j]) && At(m', fs[j].addr + SIZE) == fs[j].size
            && At(m', fs[j].addr + CHECK) == LIST_PATTERN
            && At(m', fs[j].addr + NEXT) == AddrAt(fs, j + 1) && At(m', fs[j].addr + PREVIOUS) == AddrAt(fs, j - 1)
            && (fs[j].End() <= bs[i].addr || bs[i].End() <= fs[j].addr)
  {
    hide Frees;
    FreesMembers(bs);
    assert Frees(bs)[j] in Frees(bs);
    LinkAt(m, Frees(bs), j);
    TilesDisjoint(bs, lo, hi);
    assert bs[i] in bs;
  }

  lemma HeadNode(bs: seq<Block>)
    requires bs != [] && !bs[0].used
    ensures Frees(bs) != [] && Frees(bs)[0] == bs[0]
  {
    FreesSplit(bs, 0);
    assert bs[..0] == [];
  }

  /** Order of the nodes around the freed block. */
  lemma FreedOrder(m: seq<int>, m': seq<int>, bs: seq<Block>, lo: int, hi: int, i: int)
    requires Marked(m, m', bs, lo, hi, i)
    ensures var fs, k := Frees(bs), |Frees(bs[..i])|;
            && 0 < k <= |fs| && fs[0].addr == lo
            && (forall j :: 0 <= j < k ==> 0 < fs[j].addr < fs[j].End() <= bs[i].addr)
            && (forall j :: 0 <= j < k - 1 ==> fs[j].End() != bs[i].addr)
            && (forall j :: k <= j < |fs| ==> 0 < bs[i].addr < bs[i].End() <= fs[j].addr)
            && (fs[k - 1].End() == bs[i].addr <==> !bs[i - 1].used)
  {
    hide Frees;
    var fs, k := Frees(bs), |Frees(bs[..i])|;
    FreedSides(bs, lo, hi, i);
    FreedLeft(bs, lo, hi, i);
    FreesSortedAll(bs, lo, hi);
    HeadNode(bs);
    FreedFields(m, bs, lo, hi, i);
    assert forall j :: 0 <= j < |fs| ==> InBounds(m, fs[j]);
  }

  /** What the code sees when the freed block extends the node before it, k being its list position. */
  lemma AppendShape(bs: seq<Block>, lo: int, hi: int, i: int)
    requires WellFormed(bs, lo, hi) && 0 < i < |bs| && bs[i].used && !bs[i - 1].used
    ensures var fs, k, r := Frees(bs), |Frees(bs[..i])|, Right(bs, i);
            && Left(bs, i) == i - 1 && 0 < k <= |fs| && bs[i - 1] == fs[k - 1] && fs[k - 1].End() == bs[i].addr
            && (r == i || r == i + 1)
            && (r == i + 1 <==> k < |fs| && fs[k].addr == bs[i].End())
            && bs[r].End() == bs[i].End() + (if r == i + 1 then fs[k].size else 0)
  {
    FreedLeft(bs, lo, hi, i);
    FreedRight(bs, lo, hi, i);
    MergedSize(bs, lo, hi, i - 1, Right(bs, i));
  }

  /** The merged block when the freed one starts a node of its own. */
  lemma InsertShape(bs: seq<Block>, lo: int, hi: int, i: int)
    requires WellFormed(bs, lo, hi) && 0 < i < |bs| && bs[i].used && bs[i - 1].used
    ensures var fs, k, r := Frees(bs), |Frees(bs[..i])|, Right(bs, i);
            && Left(bs, i) == i && (r == i || r == i + 1)
            && (r == i + 1 <==> k < |fs| && fs[k].addr == bs[i].End())
            && bs[r].End() == bs[i].End() + (if r == i + 1 then fs[k].size else 0)
  {
    FreedRight(bs, lo, hi, i);
    MergedSize(bs, lo, hi, i, Right(bs, i));
  }

  /** The k-th node's header and links, as the code reads them. */
  ghost predicate NodeAt(m: seq<int>, fs: seq<Block>, k: int) {
    0 <= k < |fs| ==>
      && InBounds(m, fs[k]) && At(m, fs[k].addr + SIZE) == fs[k].size && At(m, fs[k].addr + CHECK) == LIST_PATTERN
      && At(m, fs[k].addr + NEXT) == AddrAt(fs, k + 1) && At(m, fs[k].addr + PREVIOUS) == AddrAt(fs, k - 1)
  }

  /** The nodes around block i, in address order. */
  lemma Around(m: seq<int>, bs: seq<Block>, lo: int, hi: int, i: int)
    requires WellFormed(bs, lo, hi) && Represents(m, bs) && 0 < i < |bs| && bs[i].used
    ensures var fs, k := Frees(bs), |Frees(bs[..i])|;
            && 0 < k <= |fs| && InBounds(m, bs[i])
            && NodeAt(m, fs, k - 2) && NodeAt(m, fs, k - 1) && NodeAt(m, fs, k) && NodeAt(m, fs, k + 1)
            && (k > 1 ==> fs[k - 2].End() <= fs[k - 1].addr) && fs[k - 1].End() <= bs[i].addr
            && (k < |fs| ==> bs[i].End() <= fs[k].addr) && (k + 1 < |fs| ==> fs[k].End() <= fs[k + 1].addr)
  {
    hide Frees, WellFormed, Represents;
    var fs, k := Frees(bs), |Frees(bs[..i])|;
    FreedOrder(m, m, bs, lo, hi, i);
    FreesSortedAll(bs, lo, hi);
    FreedFields(m, bs, lo, hi, i);
    forall j | 0 <= j < |fs|
      ensures NodeAt(m, fs, j)
    {
      MarkedNode(m, m, bs, lo, hi, i, j);
    }
  }

  lemma AppendMerged(m: seq<int>, m': seq<int>, bs: seq<Block>, lo: int, hi: int, i: int)
    requires WellFormed(bs, lo, hi) && Represents(m, bs) && 0 < i < |bs| && bs[i].used && !bs[i - 1].used
    requires var fs, k, r := Frees(bs), |Frees(bs[..i])|, Right(bs, i);
             var a, n := AddrAt(fs, k - 1), AddrAt(fs, k + (r - i));
             && |m'| == |m| && At(m', a + SIZE) == bs[r].End() - a && At(m', a + NEXT) == n
             && (n != NULL ==> At(m', n + PREVIOUS) == a)
             && (forall b :: b == bs[i].addr + CHECK || b == bs[i].addr + RETURN || b == a + SIZE || b == a + NEXT
                             || (n != NULL && b == n + PREVIOUS) || At(m', b) == At(m, b))
    ensures MergedIn(m, m', bs, i)
  {
    hide Frees, WellFormed, Represents, Right, Left, NodeIn;
    Around(m, bs, lo, hi, i);
    AppendShape(bs, lo, hi, i);
    var fs, k, r := Frees(bs), |Frees(bs[..i])|, Right(bs, i);
    var x := fs[k - 1];
    NodeGrown(m, m', Block(x.addr, bs[r].End() - x.addr, false), bs[i].addr, AddrAt(fs, k - 2),
      AddrAt(fs, k + (r - i)));
  }

  /** A node grown over the header at c is the node of the larger block. */
  lemma NodeGrown(m: seq<int>, m': seq<int>, b: Block, c: int, p: int, n: int)
    requires InBounds(m, b) && !b.used && b.addr + FREE_HEADER <= c && c + USED_HEADER <= b.End()
    requires At(m, b.addr + CHECK) == LIST_PATTERN && At(m, b.addr + PREVIOUS) == p
    requires p != NULL ==> p + FREE_HEADER <= b.addr && At(m, p + NEXT) == b.addr
    requires n != NULL ==> b.End() <= n && At(m', n + PREVIOUS) == b.addr
    requires |m'| == |m| && At(m', b.addr + SIZE) == b.size && At(m', b.addr + NEXT) == n
    requires forall a :: a == c + CHECK || a == c + RETURN || a == b.addr + SIZE || a == b.addr + NEXT
                         || (n != NULL && a == n + PREVIOUS) || At(m', a) == At(m, a)
    ensures NodeIn(m, m', b, p, n)
  {
  }

  /** What the code reads around a block that extends the node before it. */
  lemma BehindNode(m: seq<int>, m': seq<int>, bs: seq<Block>, lo: int, hi: int, i: int)
    requires Marked(m, m', bs, lo, hi, i) && !bs[i - 1].used
    ensures WellFormed(bs, lo, hi) && Represents(m, bs) && 0 < i < |bs| && bs[i].used
    ensures var fs, k, r := Frees(bs), |Frees(bs[..i])|, Right(bs, i);
            var a, x, n := AddrAt(fs, k - 1), AddrAt(fs, k), AddrAt(fs, k + (r - i));
            && |m'| == |m|
            && (forall b :: b != bs[i].addr + CHECK && b != bs[i].addr + RETURN ==> At(m', b) == At(m, b))
            && 0 < a && FREE_HEADER <= At(m', a + SIZE) == bs[i].addr - a && FREE_HEADER <= bs[i].size
            && bs[i].End() <= |m|
            && At(m', a + NEXT) == x && (x != NULL ==> bs[i].End() <= x && At(m', x + PREVIOUS) == a)
            && (r == i || r == i + 1) && (r == i + 1 <==> bs[i].End() == x)
            && (r == i ==> bs[r].End() == bs[i].End())
            && (r == i + 1 ==> x + FREE_HEADER <= |m| && bs[r].End() == x + At(m', x + SIZE) && At(m', x + NEXT) == n)
            && (r == i + 1 ==> 0 <= n && (n != NULL ==> x + FREE_HEADER <= n && n + FREE_HEADER <= |m|))
  {
    hide Frees, WellFormed, Represents, Right, Left;
    Around(m, bs, lo, hi, i);
    AppendShape(bs, lo, hi, i);
  }

  /** What the code reads and writes around a block to be put in front of node k. */
  lemma BeforeNode(m: seq<int>, m': seq<int>, bs: seq<Block>, lo: int, hi: int, i: int)
    requires Marked(m, m', bs, lo, hi, i) && bs[i - 1].used && AddrAt(Frees(bs), |Frees(bs[..i])|) != NULL
    ensures WellFormed(bs, lo, hi) && Represents(m, bs) && 0 < i < |bs| && bs[i].used
    ensures var fs, k, r, a := Frees(bs), |Frees(bs[..i])|, Right(bs, i), bs[i].addr;
            var p, x, n := AddrAt(fs, k - 1), AddrAt(fs, k), AddrAt(fs, k + 1);
            && |m'| == |m| && (forall b :: b != a + CHECK && b != a + RETURN ==> At(m', b) == At(m, b))
            && 0 < p && p + FREE_HEADER <= a && FREE_HEADER <= bs[i].size && bs[i].End() <= x && x + FREE_HEADER <= |m|
            && At(m, x + NEXT) == n && 0 <= n && (n != NULL ==> x + FREE_HEADER <= n && n + FREE_HEADER <= |m|)
            && (r == i || r == i + 1) && (r == i + 1 <==> bs[i].End() == x)
            && bs[r].End() == bs[i].End() + (if r == i + 1 then At(m, x + SIZE) else 0)
  {
    hide Frees, WellFormed, Represents, Right, Left;
    Around(m, bs, lo, hi, i);
    InsertShape(bs, lo, hi, i);
  }

  lemma InsertMerged(m: seq<int>, m': seq<int>, bs: seq<Block>, lo: int, hi: int, i: int)
    requires WellFormed(bs, lo, hi) && Represents(m, bs) && 0 < i < |bs| && bs[i].used && bs[i - 1].used
    requires var fs, k, r, a := Frees(bs), |Frees(bs[..i])|, Right(bs, i), bs[i].addr;
             var p, n := AddrAt(fs, k - 1), AddrAt(fs, k + (r - i));
             && |m'| == |m| && At(m', a + SIZE) == bs[r].End() - a && At(m', a + CHECK) == LIST_PATTERN
             && At(m', a + NEXT) == n && At(m', a + PREVIOUS) == p && At(m', p + NEXT) == a
             && (n != NULL ==> At(m', n + PREVIOUS) == a)
             && (forall b :: a <= b < bs[i].End() || b == p + NEXT
                             || (n != NULL && b == n + PREVIOUS) || At(m', b) == At(m, b))
    ensures MergedIn(m, m', bs, i)
  {
    hide Frees, WellFormed, Represents;
    Around(m, bs, lo, hi, i);
    InsertShape(bs, lo, hi, i);
  }

  lemma Released(m: seq<int>, m': seq<int>, bs: seq<Block>, lo: int, hi: int, i: int)
    requires WellFormed(bs, lo, hi) && Represents(m, bs) && 0 < i < |bs| && bs[i].used && MergedIn(m, m', bs, i)
    requires WellFormed(Release(bs, i), lo, hi)
    ensures Represents(m', Release(bs, i)) && PayloadsKept(m, m', bs, bs[i])
  {
    hide Frees, MergedIn, Rewritten, Represents, PayloadsKept;
    var l, r := Left(bs, i), Right(bs, i);
    ReleaseRewritten(m, m', bs, lo, hi, i);
    Transition(m, m', bs, lo, hi, l, r, [Block(bs[l].addr, bs[r].End() - bs[l].addr, false)], Release(bs, i), bs[i]);
  }

  /** What the code reads at the block it is about to carve. */
  lemma FoundFields(m: seq<int>, bs: seq<Block>, lo: int, hi: int, i: int)
    requires WellFormed(bs, lo, hi) && Represents(m, bs) && 0 <= i < |bs| && !bs[i].used
    ensures InBounds(m, bs[i]) && At(m, bs[i].addr + SIZE) == bs[i].size
    ensures var fs, f := Frees(bs), |Frees(bs[..i])|;
            var p, n := AddrAt(fs, f - 1), AddrAt(fs, f + 1);
            && At(m, bs[i].addr + PREVIOUS) == p && At(m, bs[i].addr + NEXT) == n
            && (i > 0 ==> p > 0) && (p != NULL ==> p + FREE_HEADER <= bs[i].addr)
            && 0 <= n && (n != NULL ==> bs[i].End() <= n && n + FREE_HEADER <= |m|)
  {
    var fs, f := Frees(bs), |Frees(bs[..i])|;
    FreesSplit(bs, i);
    LinkAt(m, fs, f);
    HeadIsFirst(bs, i);
    FreesSortedAll(bs, lo, hi);
    assert f > 0 ==> InBounds(m, fs[f - 1]);
    assert f + 1 < |fs| ==> InBounds(m, fs[f + 1]);
    assert bs[i] in bs;
  }

  // ---------------------------------------------------------------- the allocator

  lemma FitsFree(bs: seq<Block>, i: int, total: int)
    requires BestFit(bs, i, total)
    ensures Eligible(bs, i, total) && 0 <= i < |bs| && !bs[i].used
  {
  }

  /** With a free block as the exception, no payload is excepted. */
  lemma AllKept(m: seq<int>, m': seq<int>, bs: seq<Block>, i: int)
    requires 0 <= i < |bs| && !bs[i].used && PayloadsKept(m, m', bs, bs[i])
    ensures forall b, a :: b in bs && b.used && b.addr + USED_HEADER <= a < b.End() ==> At(m', a) == At(m, a)
  {
  }

  lemma LostBytes(start: int, size: int)
    ensures var lo, hi := Align4(start), (start + size) / 4 * 4;
            && (hi - lo) % 4 == 0 && start <= lo && hi <= start + size
            && 0 <= size - (hi - lo) <= 6 && (size == hi - lo <==> start % 4 == 0 && size % 4 == 0)
  {
  }

  class Arena {
    const mem: array<int>
    var heap: int
    var heapSize: int
    var heapUsed: int
    var maxUsedSingle: int

    ghost var blocks: seq<Block>
    ghost var end: int
    ghost var counted: bool

    /** Bytes of the configured size lost to alignment at both ends. */
    ghost function Slack(): int
      reads this
    {
      heapSize - (end - heap)
    }

    ghost predicate Valid()
      reads this, mem
    {
      && WellFormed(blocks, heap, end)
      && Represents(mem[..], blocks)
      && 0 <= Slack() <= 6
      && heapUsed == SumUsed(blocks) + (if counted then Slack() else 0)
    }

    /** heap_mem_init over the bytes [start, start + size) */
    constructor (mem: array<int>, start: int, size: int)
      requires 0 < start && start + size <= mem.Length
      requires (start + size) / 4 * 4 - Align4(start) >= FREE_HEADER
      modifies mem
      ensures Valid() && this.mem == mem
      ensures heap == Align4(start) && end == (start + size) / 4 * 4
      ensures blocks == [Block(heap, end - heap, false)] && !counted && heapSize == size
      ensures Slack() == 0 <==> start % 4 == 0 && size % 4 == 0
    {
      hide WellFormed, Represents, SumUsed, Frees, Align4;
      var lo, hi := Align4(start), (start + size) / 4 * 4;
      LostBytes(start, size);
      this.mem := mem;
      heap := lo;
      heapSize := size;
      heapUsed := 0;
      maxUsedSingle := 0;
      end := hi;
      counted := false;
      blocks := [Block(lo, hi - lo, false)];
      new;
      mem[lo + SIZE] := hi - lo;
      mem[lo + CHECK] := LIST_PATTERN;
      mem[lo + NEXT] := NULL;
      mem[lo + PREVIOUS] := NULL;
      FreshArena(mem[..], lo, hi);
    }

    /**
     heap_mem_alloc: best fit over the free list, tail split, NULL when nothing fits
     (the code then stops the system).
     */
    method Alloc(request: nat, address: int) returns (ptr: int)
      requires Valid() && request + 3 + USED_HEADER < 0x1_0000_0000
      modifies this, mem
      ensures Valid() && counted && heap == old(heap) && end == old(end) && heapSize == old(heapSize)
      ensures Slack() == old(Slack()) && (heapUsed == SumUsed(blocks) <==> Slack() == 0)
      ensures ptr == NULL ==> (forall i :: !Eligible(old(blocks), i, TotalSize(request)))
      ensures ptr == NULL ==> blocks == old(blocks) && mem[..] == old(mem[..]) && maxUsedSingle == old(maxUsedSingle)
      ensures ptr != NULL ==> heapUsed <= maxUsedSingle && old(maxUsedSingle) <= maxUsedSingle
      ensures ptr != NULL ==> maxUsedSingle == old(maxUsedSingle) || maxUsedSingle == heapUsed
      ensures ptr != NULL ==> exists i ::
          && BestFit(old(blocks), i, TotalSize(request)) && blocks == Carve(old(blocks), i, TotalSize(request))
          && ptr == CarvedAddr(old(blocks), i, TotalSize(request)) + USED_HEADER
      ensures forall b, a :: b in old(blocks) && b.used && b.addr + USED_HEADER <= a < b.End() ==>
        At(mem[..], a) == At(old(mem[..]), a)
    {
      hide Frees, SumUsed, SumSizes, Represents, WellFormed, BestSoFar, Carve, PayloadsKept, BestFit;
      var totalsize := Align4(request) + USED_HEADER;
      if totalsize < FREE_HEADER {
        totalsize := FREE_HEADER;
      }
      ghost var total, bs, m := totalsize, blocks, mem[..];
      var found, totalfree, f := Search(totalsize);
      FreePlusUsedAll(blocks, heap, end);
      if found != NULL {
        NodeFields(f);
        if mem[found + SIZE] < totalsize + FREE_HEADER {
          totalsize := mem[found + SIZE];
        }
      }
      heapUsed := heapSize - totalfree;
      counted := true;
      if found == NULL {
        NoNodeNoFit(blocks, heap, end, total);
        return NULL;
      }
      CountUsed(totalsize);
      ghost var i := ChosenBlock(blocks, heap, end, f, total);
      FitsFree(bs, i, total);
      ptr := HandOut(found, totalsize, address, total, i);
      AllKept(m, mem[..], bs, i);
      assert BestFit(bs, i, TotalSize(request));
    }

    /** The used count goes up, and so does its maximum if it is passed. */
    method CountUsed(totalsize: int)
      modifies this`heapUsed, this`maxUsedSingle
      ensures heapUsed == old(heapUsed) + totalsize && heapUsed <= maxUsedSingle
      ensures old(maxUsedSingle) <= maxUsedSingle && (maxUsedSingle == old(maxUsedSingle) || maxUsedSingle == heapUsed)
    {
      heapUsed := heapUsed + totalsize;
      if maxUsedSingle < heapUsed {
        maxUsedSingle := heapUsed;
      }
    }

    /** The scan of heap_mem_alloc over the whole free list. */
    method Search(totalsize: int) returns (found: int, totalfree: int, ghost f: int)
      requires Valid()
      ensures totalfree == SumSizes(Frees(blocks))
      ensures f >= -1 && BestSoFar(Frees(blocks), f, |Frees(blocks)|, totalsize)
      ensures found == AddrAt(Frees(blocks), f) && (found == NULL <==> f < 0)
    {
      hide Frees, SumSizes, WellFormed, Represents, SumUsed;
      ghost var fs := Frees(blocks);
      var node := heap;
      found, totalfree, f := NULL, 0, -1;
      ghost var k := 0;
      FirstNode();
      SumSizesNone();
      while node != NULL
        invariant 0 <= k <= |fs| && node == AddrAt(fs, k)
        invariant BestSoFar(fs, f, k, totalsize)
        invariant found == AddrAt(fs, f) && (found == NULL <==> f < 0)
        invariant totalfree == SumSizes(fs[..k])
        decreases |fs| - k
      {
        NodeFields(k);
        totalfree := totalfree + mem[node + SIZE];
        SumSizesStep(fs, k);
        if mem[node + SIZE] >= totalsize {
          if mem[node + SIZE] >= totalsize + FREE_HEADER || mem[node + PREVIOUS] != NULL {
            if f >= 0 {
              NodeFields(f);
            }
            if found == NULL || mem[found + SIZE] > mem[node + SIZE] {
              found, f := node, k;
            }
          }
        }
        node := mem[node + NEXT];
        k := k + 1;
      }
      LastNode(k);
      assert fs[..k] == fs;
    }

    /** Carving the found block: it leaves the list as a whole, or loses its tail. */
    method HandOut(found: int, totalsize: int, address: int, ghost total: int, ghost i: int) returns (ptr: int)
      requires WellFormed(blocks, heap, end) && Represents(mem[..], blocks)
      requires Eligible(blocks, i, total) && total >= FREE_HEADER && total % 4 == 0
      requires found == blocks[i].addr && totalsize == Taken(blocks[i].size, total)
      modifies mem, this`blocks
      ensures WellFormed(blocks, heap, end) && Represents(mem[..], blocks)
      ensures blocks == Carve(old(blocks), i, total)
      ensures ptr == CarvedAddr(old(blocks), i, total) + USED_HEADER
      ensures PayloadsKept(old(mem[..]), mem[..], old(blocks), old(blocks[i]))
    {
      hide Frees, WellFormed, PayloadsKept, Links;
      ghost var bs := blocks;
      CarveWellFormed(bs, heap, end, i, total);
      FoundFields(mem[..], bs, heap, end, i);
      var alloc;
      if mem[found + SIZE] == totalsize {
        TakeWhole(found, totalsize, address, i);
        alloc := found;
      } else {
        alloc := TakeTail(found, totalsize, address, i);
      }
      blocks := Carve(bs, i, total);
      ptr := alloc + USED_HEADER;
    }

    method TakeWhole(found: int, totalsize: int, address: int, ghost i: int)
      requires WellFormed(blocks, heap, end) && Represents(mem[..], blocks)
      requires 0 < i < |blocks| && !blocks[i].used && found == blocks[i].addr && totalsize == blocks[i].size
      requires WellFormed(blocks[i := blocks[i].(used := true)], heap, end)
      modifies mem
      ensures Represents(mem[..], blocks[i := blocks[i].(used := true)])
      ensures PayloadsKept(old(mem[..]), mem[..], blocks, blocks[i])
    {
      hide Frees, WellFormed, PayloadsKept, Represents, Rewritten;
      ghost var m, bs := mem[..], blocks;
      FoundFields(m, bs, heap, end, i);
      var previous, next := mem[found + PREVIOUS], mem[found + NEXT];
      mem[previous + NEXT] := next;
      if next != NULL {
        mem[next + PREVIOUS] := previous;
      }
      mem[found + SIZE] := totalsize;
      mem[found + CHECK] := ALLOCATED_PATTERN;
      mem[found + RETURN] := address;
      UnlinkRewritten(m, mem[..], bs, heap, end, i);
      ghost var y := bs[i].(used := true);
      UpdateAsConcat(bs, i, y);
      Transition(m, mem[..], bs, heap, end, i, i, [y], bs[i := y], bs[i]);
    }

    method TakeTail(found: int, totalsize: int, address: int, ghost i: int) returns (alloc: int)
      requires WellFormed(blocks, heap, end) && Represents(mem[..], blocks)
      requires 0 <= i < |blocks| && !blocks[i].used && found == blocks[i].addr
      requires FREE_HEADER <= totalsize && FREE_HEADER <= blocks[i].size - totalsize
      requires WellFormed(Carve(blocks, i, totalsize), heap, end)
      modifies mem
      ensures alloc == blocks[i].End() - totalsize
      ensures Represents(mem[..], Carve(blocks, i, totalsize))
      ensures PayloadsKept(old(mem[..]), mem[..], blocks, blocks[i])
    {
      hide Frees, WellFormed, PayloadsKept, Represents, Rewritten, TailCut;
      ghost var m, bs := mem[..], blocks;
      FoundFields(m, bs, heap, end, i);
      alloc := CutTail(found, totalsize, address, bs[i]);
      SplitRewritten(m, mem[..], bs, heap, end, i, totalsize);
      ghost var y, z := Block(bs[i].addr, bs[i].size - totalsize, false),
        Block(bs[i].End() - totalsize, totalsize, true);
      Transition(m, mem[..], bs, heap, end, i, i, [y, z], Carve(bs, i, totalsize), bs[i]);
    }

    method CutTail(found: int, totalsize: int, address: int, ghost x: Block) returns (alloc: int)
      requires InBounds(mem[..], x) && found == x.addr && At(mem[..], found + SIZE) == x.size
      requires FREE_HEADER <= totalsize && FREE_HEADER <= x.size - totalsize
      modifies mem
      ensures alloc == x.End() - totalsize && TailCut(old(mem[..]), mem[..], x, totalsize)
    {
      mem[found + SIZE] := mem[found + SIZE] - totalsize;
      alloc := found + mem[found + SIZE];
      mem[alloc + SIZE] := totalsize;
      mem[alloc + CHECK] := ALLOCATED_PATTERN;
      mem[alloc + RETURN] := address;
    }

    /** heap_mem_free of a live payload pointer. */
    method Free(ptr: int, address: int)
      requires Valid() && Find(blocks, ptr - USED_HEADER) >= 0
      modifies this, mem
      ensures Valid() && counted == old(counted) && heap == old(heap) && end == old(end) && heapSize == old(heapSize)
      ensures Slack() == old(Slack()) && (counted ==> (heapUsed == SumUsed(blocks) <==> Slack() == 0))
      ensures var i := Find(old(blocks), ptr - USED_HEADER); 0 < i && blocks == Release(old(blocks), i)
      ensures forall b, a :: b in old(blocks) && b.used && b.addr != ptr - USED_HEADER
                             && b.addr + USED_HEADER <= a < b.End()
                ==> At(mem[..], a) == At(old(mem[..]), a)
    {
      hide Frees, SumUsed, Represents, MergedIn, Rewritten, Release;
      var freed := ptr - USED_HEADER;
      ghost var m, bs := mem[..], blocks;
      ghost var i := Find(blocks, freed);
      FreedFields(m, bs, heap, end, i);
      mem[freed + CHECK] := FREE_PATTERN;
      var size := mem[freed + SIZE];
      mem[freed + RETURN] := address;
      var node, previous, touching := Locate(freed, i, m);
      if touching {
        Append(node, size, i, m);
      } else if node != NULL {
        InsertBefore(previous, node, freed, size, i, m);
      } else {
        InsertLast(previous, freed, size, i, m);
      }
      heapUsed := heapUsed - size;
      ReleaseAccounting(bs, i);
      ReleaseWellFormed(bs, heap, end, i);
      Released(m, mem[..], bs, heap, end, i);
      blocks := Release(bs, i);
    }

    /** The walk of heap_mem_free to the node the freed block touches, or must go in front of. */
    method Locate(freed: int, ghost i: int, ghost m: seq<int>) returns (node: int, previous: int, touching: bool)
      requires Marked(m, mem[..], blocks, heap, end, i) && freed == blocks[i].addr && heap == blocks[0].addr
      ensures Located(blocks, i, node, previous, touching)
    {
      hide Frees, WellFormed, Represents;
      ghost var fs, k, j := Frees(blocks), |Frees(blocks[..i])|, 0;
      FreedOrder(m, mem[..], blocks, heap, end, i);
      node, previous := heap, NULL;
      while node != NULL
        invariant 0 <= j <= k && node == AddrAt(fs, j) && previous == AddrAt(fs, j - 1)
        invariant j == k ==> fs[k - 1].End() != freed
        decreases k - j
      {
        if j < |fs| {
          MarkedNode(m, mem[..], blocks, heap, end, i, j);
        }
        if freed == node + mem[node + SIZE] {
          return node, previous, true;
        } else if freed < node {
          return node, previous, false;
        }
        previous, node := node, mem[node + NEXT];
        j := j + 1;
      }
      touching := false;
    }

    /** The freed block extends the node before it, and maybe joins it with the one after. */
    method Append(node: int, size: int, ghost i: int, ghost m: seq<int>)
      requires Marked(m, mem[..], blocks, heap, end, i) && size == blocks[i].size && !blocks[i - 1].used
      requires node == AddrAt(Frees(blocks), |Frees(blocks[..i])| - 1)
      modifies mem
      ensures MergedIn(m, mem[..], blocks, i)
    {
      hide Frees, WellFormed, Represents, MergedIn, Right, Left, Marked;
      BehindNode(m, mem[..], blocks, heap, end, i);
      Extend(node, size);
      AppendMerged(m, mem[..], blocks, heap, end, i);
    }

    method Extend(node: int, size: int)
      requires 0 < node && 0 < size && FREE_HEADER <= At(mem[..], node + SIZE) && node + FREE_HEADER <= mem.Length
      requires var x := At(mem[..], node + NEXT);
               x == node + At(mem[..], node + SIZE) + size ==>
                 var n := At(mem[..], x + NEXT);
                 x + FREE_HEADER <= mem.Length && 0 <= n && (n != NULL ==> x < n && n + FREE_HEADER <= mem.Length)
      modifies mem
      ensures var m, m' := old(mem[..]), mem[..];
              var x, s := At(m, node + NEXT), At(m, node + SIZE) + size;
              var n := if x == node + s then At(m, x + NEXT) else x;
              && At(m', node + SIZE) == s + (if x == node + s then At(m, x + SIZE) else 0) && At(m', node + NEXT) == n
              && (x == node + s && n != NULL ==> At(m', n + PREVIOUS) == node)
              && (forall b :: b == node + SIZE
                   || (x == node + s && (b == node + NEXT || (n != NULL && b == n + PREVIOUS)))
                              || At(m', b) == At(m, b))
    {
      mem[node + SIZE] := mem[node + SIZE] + size;
      if mem[node + NEXT] == node + mem[node + SIZE] {
        var next := mem[node + NEXT];
        mem[node + SIZE] := mem[node + SIZE] + mem[next + SIZE];
        mem[node + NEXT] := mem[next + NEXT];
        if mem[next + NEXT] != NULL {
          mem[mem[next + NEXT] + PREVIOUS] := node;
        }
      }
    }

    /** The freed block becomes a node of its own, or swallows the node behind it. */
    method InsertBefore(previous: int, node: int, freed: int, size: int, ghost i: int, ghost m: seq<int>)
      requires Marked(m, mem[..], blocks, heap, end, i) && freed == blocks[i].addr
      requires size == blocks[i].size && blocks[i - 1].used
      requires var fs, k := Frees(blocks), |Frees(blocks[..i])|; node == AddrAt(fs, k) && previous == AddrAt(fs, k - 1)
      requires node != NULL
      modifies mem
      ensures MergedIn(m, mem[..], blocks, i)
    {
      hide Frees, WellFormed, Represents, MergedIn, Right, Left, Marked, NodeAt, InBounds;
      BeforeNode(m, mem[..], blocks, heap, end, i);
      LinkBefore(previous, node, freed, size);
      InsertMerged(m, mem[..], blocks, heap, end, i);
    }

    method LinkBefore(previous: int, node: int, freed: int, size: int)
      requires 0 < previous && previous + FREE_HEADER <= freed && FREE_HEADER <= size
      requires freed + size <= node && node + FREE_HEADER <= mem.Length
      requires var n := At(mem[..], node + NEXT);
               0 <= n && (n != NULL ==> node + FREE_HEADER <= n && n + FREE_HEADER <= mem.Length)
      modifies mem
      ensures var m, m', joined := old(mem[..]), mem[..], freed + size == node;
              var n := if joined then At(m, node + NEXT) else node;
              && At(m', freed + SIZE) == size + (if joined then At(m, node + SIZE) else 0)
              && At(m', freed + CHECK) == LIST_PATTERN && At(m', freed + NEXT) == n
              && At(m', freed + PREVIOUS) == previous
              && At(m', previous + NEXT) == freed && (n != NULL ==> At(m', n + PREVIOUS) == freed)
              && (forall b :: freed <= b < freed + size || b == previous + NEXT || (n != NULL && b == n + PREVIOUS)
                              || At(m', b) == At(m, b))
    {
      mem[previous + NEXT] := freed;
      mem[freed + PREVIOUS] := previous;
      mem[freed + CHECK] := LIST_PATTERN;
      if freed + size == node {
        mem[freed + NEXT] := mem[node + NEXT];
        if mem[node + NEXT] != NULL {
          mem[mem[node + NEXT] + PREVIOUS] := freed;
        }
        mem[freed + SIZE] := mem[node + SIZE] + size;
      } else {
        mem[freed + NEXT] := node;
        mem[node + PREVIOUS] := freed;
        mem[freed + SIZE] := size;
      }
    }

    /** The freed block is beyond the last node and does not touch it. */
    method InsertLast(previous: int, freed: int, size: int, ghost i: int, ghost m: seq<int>)
      requires Marked(m, mem[..], blocks, heap, end, i) && freed == blocks[i].addr
      requires size == blocks[i].size && blocks[i - 1].used
      requires var fs, k := Frees(blocks), |Frees(blocks[..i])|; AddrAt(fs, k) == NULL && previous == AddrAt(fs, k - 1)
      modifies mem
      ensures MergedIn(m, mem[..], blocks, i)
    {
      hide Frees, WellFormed, Represents, MergedIn, Right, Left;
      Around(m, blocks, heap, end, i);
      InsertShape(blocks, heap, end, i);
      mem[freed + CHECK] := LIST_PATTERN;
      mem[previous + NEXT] := freed;
      mem[freed + NEXT] := NULL;
      mem[freed + PREVIOUS] := previous;
      mem[freed + SIZE] := size;
      InsertMerged(m, mem[..], blocks, heap, end, i);
    }

    /** The head block is the first node of the list. */
    lemma FirstNode()
      requires Valid()
      ensures Frees(blocks) != [] && Frees(blocks)[0] == blocks[0] && Frees(blocks)[0].addr == heap
    {
      HeadNode(blocks);
    }

    /** The walk ends only at the end of the list. */
    lemma LastNode(k: int)
      requires Valid() && 0 <= k <= |Frees(blocks)| && AddrAt(Frees(blocks), k) == NULL
      ensures k == |Frees(blocks)|
    {
      assert k < |Frees(blocks)| ==> InBounds(mem[..], Frees(blocks)[k]);
    }

    /** What the code reads at the k-th node. */
    lemma NodeFields(k: int)
      requires Valid() && AddrAt(Frees(blocks), k) != NULL
      ensures 0 <= k < |Frees(blocks)|
      ensures var b := Frees(blocks)[k];
        && InBounds(mem[..], b) && b in blocks && !b.used
        && mem[b.addr + SIZE] == b.size && mem[b.addr + CHECK] == LIST_PATTERN
        && mem[b.addr + NEXT] == AddrAt(Frees(blocks), k + 1)
        && mem[b.addr + PREVIOUS] == AddrAt(Frees(blocks), k - 1)
        && (k > 0 ==> mem[b.addr + PREVIOUS] != NULL)
    {
      FreesMembers(blocks);
      var fs := Frees(blocks);
      LinkAt(mem[..], fs, k);
      assert fs[k] in fs;
      assert k > 0 ==> InBounds(mem[..], fs[k - 1]);
    }

    /**
     heap_dump_used_mem: walks block by block by size, telling used from free by the header
     pattern, until no more than the reserved tail is left. Reports address and size.
     */
    method DumpUsed() returns (report: seq<(int, int)>)
      requires Valid()
      ensures report == UsedBlocks(blocks)
    {
      hide Frees, WellFormed, Represents, SumUsed, UsedBlocks, InBounds;
      report := [];
      var node, left := heap, heapSize;
      ghost var k := 0;
      NoUsedBlocks();
      BlockFields(mem[..], blocks, heap, end, 0);
      while left > RSV_TAIL_SIZE
        invariant 0 <= k <= |blocks| && node == BlockAddr(blocks, end, k)
        invariant left == end - node + Slack()
        invariant report == UsedBlocks(blocks[..k])
        decreases |blocks| - k
      {
        BlockFields(mem[..], blocks, heap, end, k);
        UsedBlocksStep(blocks, k);
        var size := mem[node + SIZE];
        if mem[node + CHECK] == ALLOCATED_PATTERN {
          report := report + [(node, size)];
        }
        left := left - size;
        node := node + size;
        k := k + 1;
      }
      BlockFields(mem[..], blocks, heap, end, k);
      assert k == |blocks| && blocks[..k] == blocks;
    }
  }

  /** Address of the k-th block of an arena that ends at hi, hi behind the last one. */
  function BlockAddr(bs: seq<Block>, hi: int, k: int): int {
    if 0 <= k < |bs| then bs[k].addr else hi
  }

  /** What the code reads at the k-th block, and where the next one is. */
  lemma BlockFields(m: seq<int>, bs: seq<Block>, lo: int, hi: int, k: int)
    requires WellFormed(bs, lo, hi) && Represents(m, bs) && 0 <= k <= |bs|
    ensures |bs| > 0 && bs[0].addr == lo && BlockAddr(bs, hi, |bs|) == hi
    ensures k < |bs| ==>
      && 0 < bs[k].addr && FREE_HEADER <= bs[k].size && bs[k].End() <= |m| && bs[k].End() <= hi
      && At(m, bs[k].addr + SIZE) == bs[k].size
      && (At(m, bs[k].addr + CHECK) == ALLOCATED_PATTERN <==> bs[k].used)
      && BlockAddr(bs, hi, k + 1) == bs[k].End()
  {
    hide Links, Frees;
    if k < |bs| {
      TilesBounds(bs, lo, hi, k);
      assert bs[k] in bs;
    }
  }

  lemma FirstWord()
    ensures Align4(1) == 4
  {
  }

  /**
   An arena of 101 bytes from address 1 on: five bytes are lost to alignment, and count as used from the
   first call on.
   */
  method UnalignedArena() returns (arena: Arena)
    ensures fresh(arena) && arena.Valid() && arena.Slack() == 5
    ensures arena.heapUsed == SumUsed(arena.blocks) + 5
  {
    hide WellFormed, Represents, SumUsed, Frees, Align4, Carve;
    FirstWord();
    var mem := new int[102];
    arena := new Arena(mem, 1, 101);
    var _ := arena.Alloc(4, 0);
  }

  /** Address and size of every live block, in address order. */
  function UsedBlocks(bs: seq<Block>): seq<(int, int)> {
    if bs == [] then []
    else UsedBlocks(bs[..|bs| - 1]) + (if bs[|bs| - 1].used then [(bs[|bs| - 1].addr, bs[|bs| - 1].size)] else [])
  }

  lemma NoUsedBlocks()
    ensures forall bs :: |bs| == 0 ==> UsedBlocks(bs) == []
  {
  }

  lemma UsedBlocksStep(bs: seq<Block>, k: int)
    requires 0 <= k < |bs|
    ensures UsedBlocks(bs[..k + 1]) == UsedBlocks(bs[..k]) + (if bs[k].used then [(bs[k].addr, bs[k].size)] else [])
  {
    assert bs[..k + 1][..k] == bs[..k];
  }

  // ---------------------------------------------------------------- several arenas

  /** One registered heap: aligned base, configured size, first address behind its last block. */
  datatype Region = Region(base: int, size: int, end: int) {
    predicate Ok() { 0 <= size - (end - base) <= 6 }
  }

  /**
   heap_mem_free's search for the arena a pointer came from. The range test includes the end
   address and the alignment slack, yet it finds the owner as long as arenas do not overlap.
   */
  method Select(heaps: seq<Region>, ptr: int, ghost owner: nat) returns (cursor: nat)
    requires owner < |heaps| && heaps[owner].base + FREE_HEADER + USED_HEADER <= ptr < heaps[owner].end
    requires forall i :: 0 <= i < |heaps| ==> heaps[i].Ok()
    requires forall i, j :: 0 <= i < j < |heaps| ==> heaps[i].end <= heaps[j].base || heaps[j].end <= heaps[i].base
    ensures cursor == owner
  {
    cursor := 0;
    while cursor < |heaps| && !(heaps[cursor].base <= ptr <= heaps[cursor].base + heaps[cursor].size)
      invariant cursor <= owner
    {
      cursor := cursor + 1;
    }
  }
}
