/** What the CRC is for: damage within any four consecutive bytes changes it. */
module Crc32Detects {
  import opened Crc32

  /** A register step loses nothing. */
  lemma ShiftInjective(a: bv32, b: bv32)
    requires Shift(a) == Shift(b)
    ensures a == b
  {
  }

  lemma Shift8Injective(a: bv32, b: bv32)
    requires Shift8(a) == Shift8(b)
    ensures a == b
  {
    hide Shift;
    var a1, b1 := Shift(a), Shift(b);
    var a2, b2 := Shift(a1), Shift(b1);
    var a3, b3 := Shift(a2), Shift(b2);
    var a4, b4 := Shift(a3), Shift(b3);
    var a5, b5 := Shift(a4), Shift(b4);
    var a6, b6 := Shift(a5), Shift(b5);
    var a7, b7 := Shift(a6), Shift(b6);
    ShiftInjective(a7, b7);
    ShiftInjective(a6, b6);
    ShiftInjective(a5, b5);
    ShiftInjective(a4, b4);
    ShiftInjective(a3, b3);
    ShiftInjective(a2, b2);
    ShiftInjective(a1, b1);
    ShiftInjective(a, b);
  }

  lemma XorInjective(a: bv32, b: bv32, c: bv32)
    requires Xor(a, c) == Xor(b, c)
    ensures a == b
  {
    XorTwice2(a, c);
    XorTwice2(b, c);
  }

  lemma XorTwice2(a: bv32, c: bv32)
    ensures Xor(Xor(a, c), c) == a
  {
  }

  /** The same bytes fed into different registers leave them different. */
  lemma {:induction false} RegisterInjective(c: bv32, d: bv32, data: seq<bv8>)
    requires Register(c, data) == Register(d, data)
    ensures c == d
    decreases |data|
  {
    hide Serial, Shift8, Xor;
    if data != [] {
      var n := |data| - 1;
      var x, y, w := Register(c, data[..n]), Register(d, data[..n]), data[n] as bv32;
      ByteAsWord(data[n]);
      ByteFed(x, w);
      ByteFed(y, w);
      Shift8Injective(Xor(x, w), Xor(y, w));
      XorInjective(x, y, w);
      RegisterInjective(c, d, data[..n]);
    }
  }

  // ---------------------------------------------------------------- four bytes at once

  /** A byte's place in a word fed from its low end. */
  function Up(b: bv32): bv32 { b << 8 }

  lemma UpShifted(b: bv32)
    requires b < 0x100_0000
    ensures Shift8(Up(b)) == b
  {
    hide Shift8;
    UpLow(b);
    HighShifted(Up(b));
  }

  lemma UpLow(b: bv32)
    requires b < 0x100_0000
    ensures Up(b) & 0xff == 0 && Eighth(Up(b)) == b
  {
  }

  /** Feeding a word now is the same as feeding it moved up before eight shifts. */
  lemma FeedUp(c: bv32, b: bv32)
    requires b < 0x100_0000
    ensures Xor(Shift8(c), b) == Shift8(Xor(c, Up(b)))
  {
    hide Shift8, Xor, Up;
    UpShifted(b);
    Shift8Xor(c, Up(b));
  }

  /** Four bytes as one word, the first lowest. */
  function Word(b0: bv32, b1: bv32, b2: bv32, b3: bv32): bv32 {
    Xor(b0, Up(Xor(b1, Up(Xor(b2, Up(b3))))))
  }

  lemma Bounded(b: bv32, x: bv32)
    requires b < 0x100 && x < 0x1_0000
    ensures Xor(b, Up(x)) < 0x100_0000 && (x < 0x100 ==> Xor(b, Up(x)) < 0x1_0000)
  {
  }

  /** Four bytes fed one by one, or as one word before thirty-two shifts. */
  lemma WordFed(c: bv32, b0: bv32, b1: bv32, b2: bv32, b3: bv32)
    requires b0 < 0x100 && b1 < 0x100 && b2 < 0x100 && b3 < 0x100
    ensures Shift8(Xor(Shift8(Xor(Shift8(Xor(Shift8(Xor(c, b0)), b1)), b2)), b3)) ==
      Shift8(Shift8(Shift8(Shift8(Xor(c, Word(b0, b1, b2, b3))))))
  {
    hide Shift8, Xor, Up;
    var x2 := Xor(b2, Up(b3));
    Bounded(b2, b3);
    var x1 := Xor(b1, Up(x2));
    Bounded(b1, x2);
    var r0 := Shift8(Xor(c, b0));
    var r1 := Shift8(Xor(r0, b1));
    FeedUp(Xor(r1, b2), b3);
    XorGroup(r1, b2, Up(b3));
    FeedUp(Xor(r0, b1), x2);
    XorGroup(r0, b1, Up(x2));
    FeedUp(Xor(c, b0), x1);
    XorGroup(c, b0, Up(x1));
  }

  lemma WordInjective(a0: bv32, a1: bv32, a2: bv32, a3: bv32, b0: bv32, b1: bv32, b2: bv32, b3: bv32)
    requires a0 < 0x100 && a1 < 0x100 && a2 < 0x100 && a3 < 0x100
    requires b0 < 0x100 && b1 < 0x100 && b2 < 0x100 && b3 < 0x100
    requires Word(a0, a1, a2, a3) == Word(b0, b1, b2, b3)
    ensures a0 == b0 && a1 == b1 && a2 == b2 && a3 == b3
  {
  }

  function Wide(b: bv8): (w: bv32)
    ensures w < 0x100
  {
    ByteAsWord(b);
    b as bv32
  }

  function WordOf(w: seq<bv8>): bv32
    requires |w| == 4
  {
    Word(Wide(w[0]), Wide(w[1]), Wide(w[2]), Wide(w[3]))
  }

  lemma OneByte(c: bv32, data: seq<bv8>, i: nat)
    requires i < |data|
    ensures Register(c, data[..i + 1]) == Shift8(Xor(Register(c, data[..i]), Wide(data[i])))
  {
    hide Serial, Shift8, Xor;
    assert data[..i + 1][..i] == data[..i];
    ByteAsWord(data[i]);
    ByteFed(Register(c, data[..i]), data[i] as bv32);
  }

  lemma FourBytes(c: bv32, w: seq<bv8>)
    requires |w| == 4
    ensures Register(c, w) == Shift8(Shift8(Shift8(Shift8(Xor(c, WordOf(w))))))
  {
    hide Register, Shift8, Xor, Word, Wide;
    WordFed(c, Wide(w[0]), Wide(w[1]), Wide(w[2]), Wide(w[3]));
    RegisterNothing(c, w);
    OneByte(c, w, 0);
    OneByte(c, w, 1);
    OneByte(c, w, 2);
    OneByte(c, w, 3);
    assert w[..4] == w;
  }

  lemma SameByte(a: bv8, b: bv8)
    requires Wide(a) == Wide(b)
    ensures a == b
  {
  }

  lemma FourInjective(c: bv32, a: seq<bv8>, b: seq<bv8>)
    requires |a| == 4 && |b| == 4 && Register(c, a) == Register(c, b)
    ensures a == b
  {
    hide Register, Shift8, Xor, Word;
    FourBytes(c, a);
    FourBytes(c, b);
    var x, y := Xor(c, WordOf(a)), Xor(c, WordOf(b));
    Shift8Injective(Shift8(Shift8(Shift8(x))), Shift8(Shift8(Shift8(y))));
    Shift8Injective(Shift8(Shift8(x)), Shift8(Shift8(y)));
    Shift8Injective(Shift8(x), Shift8(y));
    Shift8Injective(x, y);
    XorCommutes(c, WordOf(a));
    XorCommutes(c, WordOf(b));
    XorInjective(WordOf(a), WordOf(b), c);
    SameWord(a, b);
  }

  lemma SameWord(a: seq<bv8>, b: seq<bv8>)
    requires |a| == 4 && |b| == 4 && WordOf(a) == WordOf(b)
    ensures a == b
  {
    hide Word, Wide;
    WordInjective(Wide(a[0]), Wide(a[1]), Wide(a[2]), Wide(a[3]), Wide(b[0]), Wide(b[1]), Wide(b[2]), Wide(b[3]));
    SameByte(a[0], b[0]);
    SameByte(a[1], b[1]);
    SameByte(a[2], b[2]);
    SameByte(a[3], b[3]);
  }

  /** Up to four bytes leave a register different if they are. */
  lemma ShortInjective(c: bv32, a: seq<bv8>, b: seq<bv8>)
    requires |a| == |b| <= 4 && Register(c, a) == Register(c, b)
    ensures a == b
  {
    hide Register;
    var pad := seq<bv8>(4 - |a|, _ => 0);
    RegisterConcat(c, a, pad);
    RegisterConcat(c, b, pad);
    FourInjective(c, a + pad, b + pad);
    assert (a + pad)[..|a|] == a && (b + pad)[..|b|] == b;
  }

  /**
   Two messages of one length that differ, but only within four consecutive bytes, have different CRCs:
   every burst of errors that short is detected, wherever it is and whatever the rest of the message.
   */
  lemma BurstDetected(crc: bv32, before: seq<bv8>, a: seq<bv8>, b: seq<bv8>, after: seq<bv8>)
    requires |a| == |b| <= 4 && a != b
    ensures Crc(crc, before + a + after) != Crc(crc, before + b + after)
  {
    hide Register, Xor;
    var c := Xor(crc, ONES);
    RegisterConcat(c, before + a, after);
    RegisterConcat(c, before, a);
    RegisterConcat(c, before + b, after);
    RegisterConcat(c, before, b);
    var r := Register(c, before);
    if Crc(crc, before + a + after) == Crc(crc, before + b + after) {
      XorInjective(Register(c, before + a + after), Register(c, before + b + after), ONES);
      RegisterInjective(Register(r, a), Register(r, b), after);
      ShortInjective(r, a, b);
    }
  }

  /** The usual check value: the CRC of the nine digits from 1 to 9. */
  lemma CheckValue()
    ensures Crc(0, [0x31, 0x32, 0x33, 0x34, 0x35, 0x36, 0x37, 0x38, 0x39]) == 0xcbf43926
  {
    hide Register, Shift8;
    NineSteps();
    var d: seq<bv8> := [0x31, 0x32, 0x33, 0x34, 0x35, 0x36, 0x37, 0x38, 0x39];
    RegisterNothing(ONES, d);
    OneByte(ONES, d, 0);
    OneByte(ONES, d, 1);
    OneByte(ONES, d, 2);
    OneByte(ONES, d, 3);
    OneByte(ONES, d, 4);
    OneByte(ONES, d, 5);
    OneByte(ONES, d, 6);
    OneByte(ONES, d, 7);
    OneByte(ONES, d, 8);
    assert d[..9] == d;
  }

  lemma NineSteps()
    ensures Shift8(0xffff_ffce) == 0x7c23_1048
    ensures Shift8(0x7c23_107a) == 0xb0ac_bb32
    ensures Shift8(0xb0ac_bb01) == 0x77b7_9c2d
    ensures Shift8(0x77b7_9c19) == 0x641c_1f5c
    ensures Shift8(0x641c_1f69) == 0x340a_c5e3
    ensures Shift8(0x340a_c5d5) == 0xf68d_2c9e
    ensures Shift8(0xf68d_2ca9) == 0xaffc_9660
    ensures Shift8(0xaffc_9658) == 0x651f_2550
    ensures Shift8(0x651f_2569) == 0x340b_c6d9
  {
  }
}
