/**
 CRC-32 as RFC 1952, section 8, defines it, bit by bit, and the table-driven, eight times unrolled code
 that computes it.
 */
module Crc32 {
  const POLY: bv32 := 0xedb88320
  const ONES: bv32 := 0xffffffff

  // ---------------------------------------------------------------- bit by bit

  function Xor(a: bv32, b: bv32): bv32 { a ^ b }

  function Halved(c: bv32): bv32 { c >> 1 }

  function Low(b: bv32): bv32 { b & 1 }

  predicate Even(c: bv32) { c & 1 == 0 }

  /** The polynomial, if the register's low bit is set. */
  function Pick(c: bv32): bv32 { if Even(c) then 0 else POLY }

  /** One step of the shift register. */
  function Shift(c: bv32): bv32 { Xor(Halved(c), Pick(c)) }

  /** The low n bits of b go in one at a time, least significant first. */
  function Serial(c: bv32, b: bv32, n: nat): bv32
    decreases n
  {
    if n == 0 then c else Serial(Shift(Xor(c, Low(b))), Halved(b), n - 1)
  }

  function Register(c: bv32, data: seq<bv8>): bv32 {
    if data == [] then c else Serial(Register(c, data[..|data| - 1]), data[|data| - 1] as bv32, 8)
  }

  /** The CRC of data continued from crc, inverted before and after. */
  function Crc(crc: bv32, data: seq<bv8>): bv32 {
    Xor(Register(Xor(crc, ONES), data), ONES)
  }

  // ---------------------------------------------------------------- linearity

  lemma HalvedXor(a: bv32, b: bv32)
    ensures Halved(Xor(a, b)) == Xor(Halved(a), Halved(b))
  {
  }

  lemma PickXor(a: bv32, b: bv32)
    ensures Pick(Xor(a, b)) == Xor(Pick(a), Pick(b))
  {
  }

  lemma XorGroup(a: bv32, b: bv32, c: bv32)
    ensures Xor(a, Xor(b, c)) == Xor(Xor(a, b), c)
  {
  }

  lemma XorCommutes(a: bv32, b: bv32)
    ensures Xor(a, b) == Xor(b, a)
  {
  }

  lemma XorSwap(a: bv32, b: bv32, c: bv32, d: bv32)
    ensures Xor(Xor(a, b), Xor(c, d)) == Xor(Xor(a, c), Xor(b, d))
  {
    hide Xor;
    XorGroup(Xor(a, b), c, d);
    XorGroup(a, b, c);
    XorCommutes(b, c);
    XorGroup(a, c, b);
    XorGroup(Xor(a, c), b, d);
  }

  lemma XorNothing(c: bv32)
    ensures Xor(c, 0) == c
  {
  }

  lemma ShiftXor(a: bv32, b: bv32)
    ensures Shift(Xor(a, b)) == Xor(Shift(a), Shift(b))
  {
    hide Pick, Halved, Xor;
    HalvedXor(a, b);
    PickXor(a, b);
    XorSwap(Halved(a), Halved(b), Pick(a), Pick(b));
  }

  function Shift8(c: bv32): bv32 { Shift(Shift(Shift(Shift(Shift(Shift(Shift(Shift(c)))))))) }

  lemma Shift8Xor(a: bv32, b: bv32)
    ensures Shift8(Xor(a, b)) == Xor(Shift8(a), Shift8(b))
  {
    hide Shift, Xor;
    var a1, b1 := Shift(a), Shift(b);
    var a2, b2 := Shift(a1), Shift(b1);
    var a3, b3 := Shift(a2), Shift(b2);
    var a4, b4 := Shift(a3), Shift(b3);
    var a5, b5 := Shift(a4), Shift(b4);
    var a6, b6 := Shift(a5), Shift(b5);
    var a7, b7 := Shift(a6), Shift(b6);
    ShiftXor(a, b);
    ShiftXor(a1, b1);
    ShiftXor(a2, b2);
    ShiftXor(a3, b3);
    ShiftXor(a4, b4);
    ShiftXor(a5, b5);
    ShiftXor(a6, b6);
    ShiftXor(a7, b7);
  }

  lemma ShiftEven(x: bv32)
    requires Even(x)
    ensures Shift(x) == Halved(x)
  {
  }

  function High(b: bv32): bv32 { b & 0xfffffffe }

  lemma LowBitOut(b: bv32)
    ensures b == Xor(Low(b), High(b)) && Even(High(b)) && Halved(High(b)) == Halved(b)
  {
  }

  /** Feeding the low bit and keeping the rest for later is the same as feeding all at once. */
  lemma FeedLowBit(c: bv32, b: bv32)
    ensures Shift(Xor(c, b)) == Xor(Shift(Xor(c, Low(b))), Halved(b))
  {
    hide Shift, Xor, Low, High, Even, Halved;
    LowBitOut(b);
    ShiftEven(High(b));
    XorGroup(c, Low(b), High(b));
    ShiftXor(Xor(c, Low(b)), High(b));
  }

  function Shifts(c: bv32, n: nat): bv32
    decreases n
  {
    if n == 0 then c else Shifts(Shift(c), n - 1)
  }

  /** b has no bits above the low n. */
  predicate Narrow(b: bv32, n: nat)
    decreases n
  {
    if n == 0 then b == 0 else Narrow(Halved(b), n - 1)
  }

  /** The byte may be fed as a whole before the register is shifted. */
  lemma {:induction false} FeedWhole(c: bv32, b: bv32, n: nat)
    requires Narrow(b, n)
    ensures Shifts(Xor(c, b), n) == Serial(c, b, n)
    decreases n
  {
    hide Shift, Xor, Low, Halved;
    if n == 0 {
      XorNothing(c);
    } else {
      FeedLowBit(c, b);
      FeedWhole(Shift(Xor(c, Low(b))), Halved(b), n - 1);
    }
  }

  lemma EightShifts(c: bv32)
    ensures Shifts(c, 8) == Shift8(c)
  {
  }

  lemma ByteNarrow(b: bv32)
    requires b < 256
    ensures Narrow(b, 8)
  {
  }

  /** A byte fed bit by bit, or as a whole. */
  lemma ByteFed(c: bv32, b: bv32)
    requires b < 256
    ensures Serial(c, b, 8) == Shift8(Xor(c, b))
  {
    hide Serial, Shift8, Shifts, Narrow, Xor;
    ByteNarrow(b);
    FeedWhole(c, b, 8);
    EightShifts(Xor(c, b));
  }

  // ---------------------------------------------------------------- the table

  const ROW_0: seq<bv32> := [
    0x00000000, 0x77073096, 0xee0e612c, 0x990951ba, 0x076dc419, 0x706af48f, 0xe963a535, 0x9e6495a3,
    0x0edb8832, 0x79dcb8a4, 0xe0d5e91e, 0x97d2d988, 0x09b64c2b, 0x7eb17cbd, 0xe7b82d07, 0x90bf1d91
  ]
  const ROW_1: seq<bv32> := [
    0x1db71064, 0x6ab020f2, 0xf3b97148, 0x84be41de, 0x1adad47d, 0x6ddde4eb, 0xf4d4b551, 0x83d385c7,
    0x136c9856, 0x646ba8c0, 0xfd62f97a, 0x8a65c9ec, 0x14015c4f, 0x63066cd9, 0xfa0f3d63, 0x8d080df5
  ]
  const ROW_2: seq<bv32> := [
    0x3b6e20c8, 0x4c69105e, 0xd56041e4, 0xa2677172, 0x3c03e4d1, 0x4b04d447, 0xd20d85fd, 0xa50ab56b,
    0x35b5a8fa, 0x42b2986c, 0xdbbbc9d6, 0xacbcf940, 0x32d86ce3, 0x45df5c75, 0xdcd60dcf, 0xabd13d59
  ]
  const ROW_3: seq<bv32> := [
    0x26d930ac, 0x51de003a, 0xc8d75180, 0xbfd06116, 0x21b4f4b5, 0x56b3c423, 0xcfba9599, 0xb8bda50f,
    0x2802b89e, 0x5f058808, 0xc60cd9b2, 0xb10be924, 0x2f6f7c87, 0x58684c11, 0xc1611dab, 0xb6662d3d
  ]
  const ROW_4: seq<bv32> := [
    0x76dc4190, 0x01db7106, 0x98d220bc, 0xefd5102a, 0x71b18589, 0x06b6b51f, 0x9fbfe4a5, 0xe8b8d433,
    0x7807c9a2, 0x0f00f934, 0x9609a88e, 0xe10e9818, 0x7f6a0dbb, 0x086d3d2d, 0x91646c97, 0xe6635c01
  ]
  const ROW_5: seq<bv32> := [
    0x6b6b51f4, 0x1c6c6162, 0x856530d8, 0xf262004e, 0x6c0695ed, 0x1b01a57b, 0x8208f4c1, 0xf50fc457,
    0x65b0d9c6, 0x12b7e950, 0x8bbeb8ea, 0xfcb9887c, 0x62dd1ddf, 0x15da2d49, 0x8cd37cf3, 0xfbd44c65
  ]
  const ROW_6: seq<bv32> := [
    0x4db26158, 0x3ab551ce, 0xa3bc0074, 0xd4bb30e2, 0x4adfa541, 0x3dd895d7, 0xa4d1c46d, 0xd3d6f4fb,
    0x4369e96a, 0x346ed9fc, 0xad678846, 0xda60b8d0, 0x44042d73, 0x33031de5, 0xaa0a4c5f, 0xdd0d7cc9
  ]
  const ROW_7: seq<bv32> := [
    0x5005713c, 0x270241aa, 0xbe0b1010, 0xc90c2086, 0x5768b525, 0x206f85b3, 0xb966d409, 0xce61e49f,
    0x5edef90e, 0x29d9c998, 0xb0d09822, 0xc7d7a8b4, 0x59b33d17, 0x2eb40d81, 0xb7bd5c3b, 0xc0ba6cad
  ]
  const ROW_8: seq<bv32> := [
    0xedb88320, 0x9abfb3b6, 0x03b6e20c, 0x74b1d29a, 0xead54739, 0x9dd277af, 0x04db2615, 0x73dc1683,
    0xe3630b12, 0x94643b84, 0x0d6d6a3e, 0x7a6a5aa8, 0xe40ecf0b, 0x9309ff9d, 0x0a00ae27, 0x7d079eb1
  ]
  const ROW_9: seq<bv32> := [
    0xf00f9344, 0x8708a3d2, 0x1e01f268, 0x6906c2fe, 0xf762575d, 0x806567cb, 0x196c3671, 0x6e6b06e7,
    0xfed41b76, 0x89d32be0, 0x10da7a5a, 0x67dd4acc, 0xf9b9df6f, 0x8ebeeff9, 0x17b7be43, 0x60b08ed5
  ]
  const ROW_10: seq<bv32> := [
    0xd6d6a3e8, 0xa1d1937e, 0x38d8c2c4, 0x4fdff252, 0xd1bb67f1, 0xa6bc5767, 0x3fb506dd, 0x48b2364b,
    0xd80d2bda, 0xaf0a1b4c, 0x36034af6, 0x41047a60, 0xdf60efc3, 0xa867df55, 0x316e8eef, 0x4669be79
  ]
  const ROW_11: seq<bv32> := [
    0xcb61b38c, 0xbc66831a, 0x256fd2a0, 0x5268e236, 0xcc0c7795, 0xbb0b4703, 0x220216b9, 0x5505262f,
    0xc5ba3bbe, 0xb2bd0b28, 0x2bb45a92, 0x5cb36a04, 0xc2d7ffa7, 0xb5d0cf31, 0x2cd99e8b, 0x5bdeae1d
  ]
  const ROW_12: seq<bv32> := [
    0x9b64c2b0, 0xec63f226, 0x756aa39c, 0x026d930a, 0x9c0906a9, 0xeb0e363f, 0x72076785, 0x05005713,
    0x95bf4a82, 0xe2b87a14, 0x7bb12bae, 0x0cb61b38, 0x92d28e9b, 0xe5d5be0d, 0x7cdcefb7, 0x0bdbdf21
  ]
  const ROW_13: seq<bv32> := [
    0x86d3d2d4, 0xf1d4e242, 0x68ddb3f8, 0x1fda836e, 0x81be16cd, 0xf6b9265b, 0x6fb077e1, 0x18b74777,
    0x88085ae6, 0xff0f6a70, 0x66063bca, 0x11010b5c, 0x8f659eff, 0xf862ae69, 0x616bffd3, 0x166ccf45
  ]
  const ROW_14: seq<bv32> := [
    0xa00ae278, 0xd70dd2ee, 0x4e048354, 0x3903b3c2, 0xa7672661, 0xd06016f7, 0x4969474d, 0x3e6e77db,
    0xaed16a4a, 0xd9d65adc, 0x40df0b66, 0x37d83bf0, 0xa9bcae53, 0xdebb9ec5, 0x47b2cf7f, 0x30b5ffe9
  ]
  const ROW_15: seq<bv32> := [
    0xbdbdf21c, 0xcabac28a, 0x53b39330, 0x24b4a3a6, 0xbad03605, 0xcdd70693, 0x54de5729, 0x23d967bf,
    0xb3667a2e, 0xc4614ab8, 0x5d681b02, 0x2a6f2b94, 0xb40bbe37, 0xc30c8ea1, 0x5a05df1b, 0x2d02ef8d
  ]

  const QUARTER_0: seq<bv32> := ROW_0 + ROW_1 + ROW_2 + ROW_3
  const QUARTER_1: seq<bv32> := ROW_4 + ROW_5 + ROW_6 + ROW_7
  const QUARTER_2: seq<bv32> := ROW_8 + ROW_9 + ROW_10 + ROW_11
  const QUARTER_3: seq<bv32> := ROW_12 + ROW_13 + ROW_14 + ROW_15

  /** crc_table */
  const TABLE: seq<bv32> := QUARTER_0 + QUARTER_1 + QUARTER_2 + QUARTER_3

  lemma FourParts(a: seq<bv32>, b: seq<bv32>, c: seq<bv32>, d: seq<bv32>, n: nat, i: nat)
    requires |a| == |b| == |c| == |d| == n && i < 4 * n
    ensures var s := a + b + c + d;
            |s| == 4 * n && s[i] ==
              if i < n then a[i] else if i < 2 * n then b[i - n] else if i < 3 * n then c[i - 2 * n] else d[i - 3 * n]
  {
  }

  lemma RowSizes()
    ensures |ROW_0| == |ROW_1| == |ROW_2| == |ROW_3| == |ROW_4| == |ROW_5| == |ROW_6| == |ROW_7| == 16
    ensures |ROW_8| == |ROW_9| == |ROW_10| == |ROW_11| == |ROW_12| == |ROW_13| == |ROW_14| == |ROW_15| == 16
    ensures |QUARTER_0| == |QUARTER_1| == |QUARTER_2| == |QUARTER_3| == 64
  {
  }

  lemma Row0At(i: bv32)
    requires 0 <= i < 16
    ensures 0 <= (i as int) < 16 && ROW_0[i as int] == Shift8(i)
  {
  }

  lemma Row1At(i: bv32)
    requires 16 <= i < 32
    ensures 16 <= (i as int) < 32 && ROW_1[(i as int) - 16] == Shift8(i)
  {
  }

  lemma Row2At(i: bv32)
    requires 32 <= i < 48
    ensures 32 <= (i as int) < 48 && ROW_2[(i as int) - 32] == Shift8(i)
  {
  }

  lemma Row3At(i: bv32)
    requires 48 <= i < 64
    ensures 48 <= (i as int) < 64 && ROW_3[(i as int) - 48] == Shift8(i)
  {
  }

  lemma Row4At(i: bv32)
    requires 64 <= i < 80
    ensures 64 <= (i as int) < 80 && ROW_4[(i as int) - 64] == Shift8(i)
  {
  }

  lemma Row5At(i: bv32)
    requires 80 <= i < 96
    ensures 80 <= (i as int) < 96 && ROW_5[(i as int) - 80] == Shift8(i)
  {
  }

  lemma Row6At(i: bv32)
    requires 96 <= i < 112
    ensures 96 <= (i as int) < 112 && ROW_6[(i as int) - 96] == Shift8(i)
  {
  }

  lemma Row7At(i: bv32)
    requires 112 <= i < 128
    ensures 112 <= (i as int) < 128 && ROW_7[(i as int) - 112] == Shift8(i)
  {
  }

  lemma Row8At(i: bv32)
    requires 128 <= i < 144
    ensures 128 <= (i as int) < 144 && ROW_8[(i as int) - 128] == Shift8(i)
  {
  }

  lemma Row9At(i: bv32)
    requires 144 <= i < 160
    ensures 144 <= (i as int) < 160 && ROW_9[(i as int) - 144] == Shift8(i)
  {
  }

  lemma Row10At(i: bv32)
    requires 160 <= i < 176
    ensures 160 <= (i as int) < 176 && ROW_10[(i as int) - 160] == Shift8(i)
  {
  }

  lemma Row11At(i: bv32)
    requires 176 <= i < 192
    ensures 176 <= (i as int) < 192 && ROW_11[(i as int) - 176] == Shift8(i)
  {
  }

  lemma Row12At(i: bv32)
    requires 192 <= i < 208
    ensures 192 <= (i as int) < 208 && ROW_12[(i as int) - 192] == Shift8(i)
  {
  }

  lemma Row13At(i: bv32)
    requires 208 <= i < 224
    ensures 208 <= (i as int) < 224 && ROW_13[(i as int) - 208] == Shift8(i)
  {
  }

  lemma Row14At(i: bv32)
    requires 224 <= i < 240
    ensures 224 <= (i as int) < 240 && ROW_14[(i as int) - 224] == Shift8(i)
  {
  }

  lemma Row15At(i: bv32)
    requires 240 <= i < 256
    ensures 240 <= (i as int) < 256 && ROW_15[(i as int) - 240] == Shift8(i)
  {
  }

  /** The first quarter of the table is right. */
  lemma Quarter0IsRight(i: bv32)
    requires 0 <= i < 64
    ensures |TABLE| == 256 && (i as int) < 256 && TABLE[i as int] == Shift8(i)
  {
    hide Shift8;
    var n := i as int;
    RowSizes();
    FourParts(QUARTER_0, QUARTER_1, QUARTER_2, QUARTER_3, 64, n);
    FourParts(ROW_0, ROW_1, ROW_2, ROW_3, 16, n);
    if i < 16 {
      Row0At(i);
    } else if i < 32 {
      Row1At(i);
    } else if i < 48 {
      Row2At(i);
    } else {
      Row3At(i);
    }
  }

  /** The second quarter of the table is right. */
  lemma Quarter1IsRight(i: bv32)
    requires 64 <= i < 128
    ensures |TABLE| == 256 && (i as int) < 256 && TABLE[i as int] == Shift8(i)
  {
    hide Shift8;
    var n := i as int;
    RowSizes();
    FourParts(QUARTER_0, QUARTER_1, QUARTER_2, QUARTER_3, 64, n);
    FourParts(ROW_4, ROW_5, ROW_6, ROW_7, 16, n - 64);
    if i < 80 {
      Row4At(i);
    } else if i < 96 {
      Row5At(i);
    } else if i < 112 {
      Row6At(i);
    } else {
      Row7At(i);
    }
  }

  /** The third quarter of the table is right. */
  lemma Quarter2IsRight(i: bv32)
    requires 128 <= i < 192
    ensures |TABLE| == 256 && (i as int) < 256 && TABLE[i as int] == Shift8(i)
  {
    hide Shift8;
    var n := i as int;
    RowSizes();
    FourParts(QUARTER_0, QUARTER_1, QUARTER_2, QUARTER_3, 64, n);
    FourParts(ROW_8, ROW_9, ROW_10, ROW_11, 16, n - 128);
    if i < 144 {
      Row8At(i);
    } else if i < 160 {
      Row9At(i);
    } else if i < 176 {
      Row10At(i);
    } else {
      Row11At(i);
    }
  }

  /** The last quarter of the table is right. */
  lemma Quarter3IsRight(i: bv32)
    requires 192 <= i < 256
    ensures |TABLE| == 256 && (i as int) < 256 && TABLE[i as int] == Shift8(i)
  {
    hide Shift8;
    var n := i as int;
    RowSizes();
    FourParts(QUARTER_0, QUARTER_1, QUARTER_2, QUARTER_3, 64, n);
    FourParts(ROW_12, ROW_13, ROW_14, ROW_15, 16, n - 192);
    if i < 208 {
      Row12At(i);
    } else if i < 224 {
      Row13At(i);
    } else if i < 240 {
      Row14At(i);
    } else {
      Row15At(i);
    }
  }

  /** Every entry of the table is what eight shifts make of its index. */
  lemma TableIsRight(i: bv32)
    requires i < 256
    ensures |TABLE| == 256 && (i as int) < 256 && TABLE[i as int] == Shift8(i)
  {
    hide Shift8;
    if i < 64 {
      Quarter0IsRight(i);
    } else if i < 128 {
      Quarter1IsRight(i);
    } else if i < 192 {
      Quarter2IsRight(i);
    } else {
      Quarter3IsRight(i);
    }
  }

  // ---------------------------------------------------------------- the code

  function LowByte(c: bv32): (r: bv32)
    ensures r < 256
  {
    c & 0xff
  }

  function HighBytes(c: bv32): bv32 { c & 0xffffff00 }

  function Eighth(c: bv32): bv32 { c >> 8 }

  function Lookup(i: bv32): bv32
    requires i < 256
  {
    TableIsRight(i);
    TABLE[i as int]
  }

  /** DO1 */
  function Do1(crc: bv32, b: bv8): bv32 {
    Xor(Lookup(LowByte(Xor(crc, b as bv32))), Eighth(crc))
  }

  lemma ByteAsWord(b: bv8)
    ensures (b as bv32) < 256
  {
  }

  lemma LookupIs(i: bv32)
    requires i < 256
    ensures Lookup(i) == Shift8(i)
  {
    hide Shift8;
    TableIsRight(i);
  }

  lemma SplitWord(x: bv32)
    ensures x == Xor(LowByte(x), HighBytes(x)) && HighBytes(x) & 0xff == 0
  {
  }

  lemma HighOnly(c: bv32, b: bv32)
    requires b < 256
    ensures Eighth(HighBytes(Xor(c, b))) == Eighth(c)
  {
  }

  lemma HighShifted(x: bv32)
    requires x & 0xff == 0
    ensures Shift8(x) == Eighth(x)
  {
  }

  /** One table step is the eight bit steps of its byte. */
  lemma Do1IsSerial(crc: bv32, b: bv8)
    ensures Do1(crc, b) == Serial(crc, b as bv32, 8)
  {
    hide Serial, Shift8, Xor, LowByte, HighBytes, Eighth, Lookup;
    var w := b as bv32;
    ByteAsWord(b);
    ByteFed(crc, w);
    var x := Xor(crc, w);
    SplitWord(x);
    HighOnly(crc, w);
    HighShifted(HighBytes(x));
    LookupIs(LowByte(x));
    Shift8Xor(LowByte(x), HighBytes(x));
  }

  /** Continuing a CRC is the CRC of the whole. */
  lemma {:induction false} RegisterConcat(c: bv32, a: seq<bv8>, b: seq<bv8>)
    ensures Register(c, a + b) == Register(Register(c, a), b)
    decreases |b|
  {
    hide Serial;
    if b == [] {
      assert a + b == a;
    } else {
      assert (a + b)[..|a + b| - 1] == a + b[..|b| - 1];
      RegisterConcat(c, a, b[..|b| - 1]);
    }
  }

  lemma XorTwice(c: bv32)
    ensures Xor(Xor(c, ONES), ONES) == c
  {
  }

  /** crc32(crc32(c, a), b) is crc32 of a followed by b. */
  lemma CrcContinues(crc: bv32, a: seq<bv8>, b: seq<bv8>)
    ensures Crc(Crc(crc, a), b) == Crc(crc, a + b)
  {
    hide Xor, Register;
    XorTwice(Register(Xor(crc, ONES), a));
    RegisterConcat(Xor(crc, ONES), a, b);
  }

  lemma OneMore(c: bv32, buf: seq<bv8>, i: nat)
    requires i < |buf|
    ensures Register(c, buf[..i + 1]) == Do1(Register(c, buf[..i]), buf[i])
  {
    hide Serial, Do1;
    Do1IsSerial(Register(c, buf[..i]), buf[i]);
    assert buf[..i + 1][..i] == buf[..i];
  }

  /** crc32: eight bytes a turn while there are eight, then one by one. */
  method ComputeCrc32(crc: bv32, buf: seq<bv8>) returns (r: bv32)
    ensures r == Crc(crc, buf)
  {
    hide Register, Do1, Xor;
    ghost var start := Xor(crc, ONES);
    r := Xor(crc, ONES);
    var i, len := 0, |buf|;
    RegisterNothing(start, buf);
    while len >= 8
      invariant 0 <= i && 0 <= len && i + len == |buf| && r == Register(start, buf[..i])
      decreases len
    {
      forall k | i <= k < i + 8
        ensures Register(start, buf[..k + 1]) == Do1(Register(start, buf[..k]), buf[k])
      {
        OneMore(start, buf, k);
      }
      r := Do1(r, buf[i]);
      r := Do1(r, buf[i + 1]);
      r := Do1(r, buf[i + 2]);
      r := Do1(r, buf[i + 3]);
      r := Do1(r, buf[i + 4]);
      r := Do1(r, buf[i + 5]);
      r := Do1(r, buf[i + 6]);
      r := Do1(r, buf[i + 7]);
      i, len := i + 8, len - 8;
    }
    while len > 0
      invariant 0 <= i && 0 <= len && i + len == |buf| && r == Register(start, buf[..i])
      decreases len
    {
      OneMore(start, buf, i);
      r := Do1(r, buf[i]);
      i, len := i + 1, len - 1;
    }
    assert buf[..i] == buf;
    r := Xor(r, ONES);
  }

  lemma RegisterNothing(c: bv32, buf: seq<bv8>)
    ensures Register(c, buf[..0]) == c
  {
  }

  /** The loop of the flash program that sums up an image in chunks of 256 bytes. */
  method ImageCrc(image: seq<bv8>) returns (crc: bv32)
    ensures crc == Crc(0, image)
  {
    hide Crc;
    crc := 0;
    var index, left := 0, |image|;
    CrcNothing(image);
    while left > 0
      invariant 0 <= index && 0 <= left && index + left == |image| && crc == Crc(0, image[..index])
      decreases left
    {
      var single := if left > 256 then 256 else left;
      var buffer := image[index..index + single];
      CrcContinues(0, image[..index], buffer);
      assert image[..index] + buffer == image[..index + single];
      crc := ComputeCrc32(crc, buffer);
      index, left := index + single, left - single;
    }
    assert image[..index] == image;
  }

  lemma CrcNothing(image: seq<bv8>)
    ensures Crc(0, image[..0]) == 0
  {
  }
}
