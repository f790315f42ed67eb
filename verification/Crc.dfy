/** The three checksums of crc.c. The two CRCs are tied, bit by bit, to the dividing register
    of module Gf2; their guarantees are then statements about division of polynomials. */
module Crc {
  import opened Gf2

  type Bytes = seq<bv8>

  // ---------------------------------------------------------------- CCITT, x^16 + x^12 + x^5 + 1

  /** The table-free byte step, on 16-bit unsigned values. */
  function CcittByte(crc: bv16, b: bv8): bv16 {
    CcittWord(crc, b as bv16)
  }

  function High(c: bv16): bv16 {
    c >> 8
  }

  function CcittFold(x: bv16): bv16 {
    Add(x, x >> 4)
  }

  function CcittMix(crc: bv16, x: bv16): bv16 {
    Add(Add(Add(crc << 8, x << 12), x << 5), x)
  }

  function Add(a: bv16, b: bv16): bv16 {
    a ^ b
  }

  function CcittWord(crc: bv16, w: bv16): bv16 {
    CcittMix(crc, CcittFold(Add(High(crc), w)))
  }

  function CcittCrc(msg: Bytes): bv16 {
    if msg == [] then 0 else CcittByte(CcittCrc(msg[..|msg| - 1]), msg[|msg| - 1])
  }

  lemma CcittLines(crc: bv16, b: bv8)
    ensures CcittByte(crc, b) == CcittMix(crc, CcittFold((crc >> 8) ^ (b as bv16)))
  {
  }

  method CcittCrc16(buf: array<bv8>, len: nat) returns (crc: bv16)
    requires len <= buf.Length
    ensures crc == CcittCrc(buf[..len])
  {
    hide CcittByte, CcittFold, CcittMix, Add;
    crc := 0;
    var i := 0;
    while i < len
      invariant i <= len
      invariant crc == CcittCrc(buf[..i])
    {
      CcittLines(crc, buf[i]);
      var x: bv16 := (crc >> 8) ^ (buf[i] as bv16);
      x := CcittFold(x);
      crc := CcittMix(crc, x);
      assert buf[..i + 1][..i] == buf[..i];
      i := i + 1;
    }
  }

  // ---------------------------------------------------------------- Modbus, x^16 + x^15 + x^2 + 1, reflected

  function ModbusBit(crc: bv16): bv16 {
    if crc & 1 == 1 then (crc >> 1) ^ 0xA001 else crc >> 1
  }

  function ModbusBits(crc: bv16, n: nat): bv16 {
    if n == 0 then crc else ModbusBit(ModbusBits(crc, n - 1))
  }

  const BYTE_BITS: nat := 8

  function ModbusByte(crc: bv16, b: bv8): bv16 {
    ModbusBits(Add(crc, b as bv16), BYTE_BITS)
  }

  function ModbusCrc(msg: Bytes): bv16 {
    if msg == [] then 0xFFFF else ModbusByte(ModbusCrc(msg[..|msg| - 1]), msg[|msg| - 1])
  }

  lemma ModbusLines(crc: bv16)
    ensures ModbusBit(crc) == if crc & 1 == 1 then (crc >> 1) ^ 0xA001 else crc >> 1
  {
  }

  /** The inner loop of modbus_crc16x. */
  method ModbusShiftByte(start: bv16) returns (crc: bv16)
    ensures crc == ModbusBits(start, BYTE_BITS)
  {
    hide ModbusBit;
    crc := start;
    var i := BYTE_BITS;
    while i != 0
      invariant 0 <= i <= BYTE_BITS
      invariant crc == ModbusBits(start, BYTE_BITS - i)
    {
      ModbusLines(crc);
      if crc & 0x0001 == 1 {
        crc := crc >> 1;
        crc := crc ^ 0xA001;
      } else {
        crc := crc >> 1;
      }
      i := i - 1;
    }
  }

  lemma ModbusMixes(crc: bv16, b: bv8)
    ensures ModbusByte(crc, b) == ModbusBits(crc ^ (b as bv16), BYTE_BITS)
  {
    hide ModbusBits;
  }

  method ModbusCrc16x(buf: array<bv8>, len: nat) returns (crc: bv16)
    requires len <= buf.Length
    ensures crc == ModbusCrc(buf[..len])
  {
    hide ModbusByte, ModbusBits, ModbusBit, Add;
    crc := 0xFFFF;
    var k := 0;
    while k < len
      invariant k <= len
      invariant crc == ModbusCrc(buf[..k])
    {
      ModbusMixes(crc, buf[k]);
      crc := ModbusShiftByte(crc ^ (buf[k] as bv16));
      assert buf[..k + 1][..k] == buf[..k];
      k := k + 1;
    }
  }

  // ---------------------------------------------------------------- rotate and add

  function RotateAdd(sum: bv8, b: bv8): bv8 {
    ((sum << 1) | (sum >> 7)) + b
  }

  function Checksum(msg: Bytes): bv8 {
    if msg == [] then 0 else RotateAdd(Checksum(msg[..|msg| - 1]), msg[|msg| - 1])
  }

  method GrblCrc8(buf: array<bv8>, size: nat) returns (r: bv16)
    requires size <= buf.Length
    ensures r == Checksum(buf[..size]) as bv16
  {
    var checksum: bv8 := 0;
    var i := 0;
    while i < size
      invariant i <= size
      invariant checksum == Checksum(buf[..i])
    {
      checksum := (checksum << 1) | (checksum >> 7);
      checksum := checksum + buf[i];
      assert buf[..i + 1][..i] == buf[..i];
      i := i + 1;
    }
    r := checksum as bv16;
  }

  // ---------------------------------------------------------------- words as polynomials

  /** The single bits of a word, highest first. */
  const MASKS: seq<bv16> := [0x8000, 0x4000, 0x2000, 0x1000, 0x0800, 0x0400, 0x0200, 0x0100,
                             0x0080, 0x0040, 0x0020, 0x0010, 0x0008, 0x0004, 0x0002, 0x0001]

  /** The i-th mask, and no bit at all outside the word. */
  function Mask(i: int): bv16 {
    if 0 <= i < 16 then MASKS[i] else 0
  }

  predicate On(c: bv16, mask: bv16) {
    c & mask != 0
  }

  /** Bit 15 is the coefficient of x^15 in the CCITT register. */
  function Straight(c: bv16): (r: Bits)
    ensures |r| == DEGREE && forall i :: 0 <= i < DEGREE ==> r[i] == On(c, Mask(i))
  {
    seq(DEGREE, i requires 0 <= i < DEGREE => On(c, Mask(i)))
  }

  /** Bit 0 is the coefficient of x^15 in the Modbus register. */
  function Reflected(c: bv16): (r: Bits)
    ensures |r| == DEGREE && forall i :: 0 <= i < DEGREE ==> r[i] == On(c, Mask(15 - i))
  {
    seq(DEGREE, i requires 0 <= i < DEGREE => On(c, Mask(15 - i)))
  }

  /** The bits of a byte in the order in which the CCITT register takes them. */
  function ByteMsb(b: bv8): (r: Bits)
    ensures |r| == 8
  {
    Straight(b as bv16)[8..]
  }

  /** The bits of a byte in the order in which the Modbus register takes them. */
  function ByteLsb(b: bv8): (r: Bits)
    ensures |r| == 8
  {
    Reflected(b as bv16)[..8]
  }

  function BitsMsb(msg: Bytes): (r: Bits)
    ensures |r| == 8 * |msg|
  {
    if msg == [] then [] else BitsMsb(msg[..|msg| - 1]) + ByteMsb(msg[|msg| - 1])
  }

  function BitsLsb(msg: Bytes): (r: Bits)
    ensures |r| == 8 * |msg|
  {
    if msg == [] then [] else BitsLsb(msg[..|msg| - 1]) + ByteLsb(msg[|msg| - 1])
  }

  /** x^12 + x^5 + 1, below the leading x^16. */
  const CCITT_POLY: Bits :=
    [false, false, false, true, false, false, false, false, false, false, true, false, false, false, false, true]

  /** x^15 + x^2 + 1, below the leading x^16. */
  const MODBUS_POLY: Bits :=
    [true, false, false, false, false, false, false, false, false, false, false, false, false, true, false, true]

  // ---------------------------------------------------------------- single bits of words

  /** A mask of at most one bit. */
  predicate OneBit(m: bv16) {
    m & (m - 1) == 0
  }

  lemma MaskOneBit(i: int)
    ensures OneBit(Mask(i))
  {
  }

  lemma MaskRight5(i: nat)
    requires i < 16
    ensures Mask(i) >> 5 == Mask(i + 5)
  {
  }

  lemma MaskRight8(i: nat)
    requires i < 16
    ensures Mask(i) >> 8 == Mask(i + 8)
  {
  }

  lemma MaskRight12(i: nat)
    requires i < 16
    ensures Mask(i) >> 12 == Mask(i + 12)
  {
  }

  lemma MaskLeft4(i: nat)
    requires i < 16
    ensures Mask(i) << 4 == Mask(i - 4)
  {
  }

  lemma MaskLeft8(i: nat)
    requires i < 16
    ensures Mask(i) << 8 == Mask(i - 8)
  {
  }

  lemma MaskLeft1(i: nat)
    requires i < 16
    ensures Mask(i) << 1 == Mask(i - 1)
  {
  }

  lemma OnNothing(c: bv16)
    ensures !On(c, 0)
  {
  }

  lemma OnXor(a: bv16, b: bv16, m: bv16)
    requires OneBit(m)
    ensures On(Add(a, b), m) == (On(a, m) != On(b, m))
  {
    AndXor(a, b, m);
    AndOneBit(a, m);
    AndOneBit(b, m);
    XorZero(a & m, b & m);
    hide Add, OneBit;
  }

  lemma AndXor(a: bv16, b: bv16, m: bv16)
    ensures Add(a, b) & m == Add(a & m, b & m)
  {
  }

  lemma AndOneBit(a: bv16, m: bv16)
    requires OneBit(m)
    ensures a & m == 0 || a & m == m
  {
  }

  lemma XorZero(p: bv16, q: bv16)
    ensures Add(p, q) == 0 <==> p == q
  {
  }

  lemma OnShifted(c: bv16, m: bv16)
    ensures On(c << 5, m) == On(c, m >> 5) && On(c << 8, m) == On(c, m >> 8) && On(c << 12, m) == On(c, m >> 12)
    ensures On(c >> 4, m) == On(c, m << 4) && On(c >> 8, m) == On(c, m << 8)
  {
  }

  lemma HighClear(w: bv16, i: int)
    requires w & 0xFF00 == 0 && i < 8
    ensures !On(w, Mask(i))
  {
  }

  lemma SameBits(a: bv16, b: bv16)
    requires forall i :: 0 <= i < 16 ==> On(a, Mask(i)) == On(b, Mask(i))
    ensures a == b
  {
    hide On, Mask, OneBit, Add;
    var d := Add(a, b);
    forall i | 0 <= i < 16
      ensures !On(d, Mask(i))
    {
      MaskOneBit(i);
      OnXor(a, b, Mask(i));
    }
    NoBits(d);
    NoDifference(a, b);
  }

  lemma NoDifference(a: bv16, b: bv16)
    ensures Add(a, b) == 0 ==> a == b
  {
  }

  lemma NoBits(d: bv16)
    requires forall i :: 0 <= i < 16 ==> !On(d, Mask(i))
    ensures d == 0
  {
    assert !On(d, Mask(0)) && !On(d, Mask(1)) && !On(d, Mask(2)) && !On(d, Mask(3)) && !On(d, Mask(4)) && !On(d, Mask(5));
    assert !On(d, Mask(6)) && !On(d, Mask(7)) && !On(d, Mask(8)) && !On(d, Mask(9)) && !On(d, Mask(10));
    assert !On(d, Mask(11)) && !On(d, Mask(12)) && !On(d, Mask(13)) && !On(d, Mask(14)) && !On(d, Mask(15));
  }

  lemma StraightInjective(a: bv16, b: bv16)
    requires Straight(a) == Straight(b)
    ensures a == b
  {
    hide On, Mask;
    forall i | 0 <= i < 16
      ensures On(a, Mask(i)) == On(b, Mask(i))
    {
      assert Straight(a)[i] == Straight(b)[i];
    }
    SameBits(a, b);
  }

  lemma ReflectedInjective(a: bv16, b: bv16)
    requires Reflected(a) == Reflected(b)
    ensures a == b
  {
    hide On, Mask;
    forall i | 0 <= i < 16
      ensures On(a, Mask(i)) == On(b, Mask(i))
    {
      assert Reflected(a)[15 - i] == Reflected(b)[15 - i];
    }
    SameBits(a, b);
  }

  // ---------------------------------------------------------------- CCITT: one byte is eight divider steps

  predicate At(s: Bits, i: int) {
    0 <= i < |s| && s[i]
  }

  /** One of the k leading coefficients of `s`. */
  predicate Lead(s: Bits, k: nat, i: int)
    requires k <= |s|
  {
    0 <= i < k && s[i]
  }

  predicate CcittZerosBit(s: Bits, k: nat, i: nat)
    requires |s| == DEGREE && k <= 4 && i < DEGREE
  {
    (At(s, i + k) != Lead(s, k, i + k - 4)) != (Lead(s, k, i + k - 11) != Lead(s, k, i + k - 16))
  }

  /** k <= 4 zero bits through the CCITT divider: each of the k leading coefficients comes back
      in three places, and none of them reaches the leading place again. */
  function CcittZeros(s: Bits, k: nat): (r: Bits)
    requires |s| == DEGREE && k <= 4
    ensures |r| == DEGREE && forall i :: 0 <= i < DEGREE ==> r[i] == CcittZerosBit(s, k, i)
  {
    seq(DEGREE, i requires 0 <= i < DEGREE => CcittZerosBit(s, k, i))
  }

  lemma CcittZerosStep(s: Bits, k: nat)
    requires |s| == DEGREE && k < 4
    ensures Shift(CcittZeros(s, k), false, CCITT_POLY) == CcittZeros(s, k + 1)
  {
    hide Xor, Gate, CcittZeros;
    var p, q := CcittZeros(s, k), CcittZeros(s, k + 1);
    var up, gate := p[1..] + [false], Gate(p[0], CCITT_POLY);
    var l := Shift(p, false, CCITT_POLY);
    forall i | 0 <= i < DEGREE
      ensures l[i] == q[i]
    {
      assert l[i] == (up[i] != gate[i]);
      assert CCITT_POLY[i] == (i in {3, 10, 15});
      assert p[0] == s[k];
    }
  }

  lemma {:induction false} CcittZerosFeed(s: Bits, k: nat)
    requires |s| == DEGREE && k <= 4
    ensures Feed(s, Zeros(k), CCITT_POLY) == CcittZeros(s, k)
  {
    hide Zeros, Shift, CcittZeros, CcittZerosBit;
    if k == 0 {
      CcittNoZeros(s, k);
    } else {
      CcittZerosFeed(s, k - 1);
      CcittZerosStep(s, k - 1);
      assert Zeros(k)[..k - 1] == Zeros(k - 1);
    }
  }

  lemma CcittNoZeros(s: Bits, k: nat)
    requires |s| == DEGREE && k == 0
    ensures CcittZeros(s, k) == s
  {
    hide CcittZeros;
    assert forall i :: 0 <= i < DEGREE ==> CcittZeros(s, k)[i] == s[i];
  }

  lemma CcittEightZeros(s: Bits, n: nat)
    requires |s| == DEGREE && n == 4
    ensures Feed(s, Zeros(n + n), CCITT_POLY) == CcittZeros(CcittZeros(s, n), n)
  {
    hide Feed, CcittZeros, Zeros;
    FeedConcat(s, Zeros(n), Zeros(n), CCITT_POLY);
    assert Zeros(n) + Zeros(n) == Zeros(n + n);
    CcittZerosFeed(s, n);
    CcittZerosFeed(CcittZeros(s, n), n);
  }

  /** Bit i of the folded high byte of a register `s`. */
  predicate FoldBit(s: Bits, i: int) {
    (i < 16 && At(s, i - 8)) != (i < 16 && At(s, i - 12))
  }

  /** Bit i of what the byte step makes of a register `s` that already holds the byte. */
  predicate CcittRow(s: Bits, i: nat) {
    (At(s, i + 8) != FoldBit(s, i + 12)) != (FoldBit(s, i + 5) != FoldBit(s, i))
  }

  lemma CcittRowIsEightZeros(s: Bits, n: nat, i: nat)
    requires |s| == DEGREE && n == 4 && i < DEGREE
    ensures CcittZeros(CcittZeros(s, n), n)[i] == CcittRow(s, i)
  {
    hide CcittZeros;
  }

  lemma OnMix(crc: bv16, x: bv16, i: nat)
    requires i < 16
    ensures On(CcittMix(crc, x), Mask(i))
            == ((On(crc, Mask(i + 8)) != On(x, Mask(i + 12))) != (On(x, Mask(i + 5)) != On(x, Mask(i))))
  {
    hide On, OneBit, Mask;
    var m := Mask(i);
    MaskOneBit(i);
    MaskRight5(i);
    MaskRight8(i);
    MaskRight12(i);
    OnMixMask(crc, x, m);
    OnShifted(crc, m);
    OnShifted(x, m);
  }

  lemma OnMixMask(crc: bv16, x: bv16, m: bv16)
    requires OneBit(m)
    ensures On(CcittMix(crc, x), m) == ((On(crc << 8, m) != On(x << 12, m)) != (On(x << 5, m) != On(x, m)))
  {
    hide On, OneBit, Add;
    var a, b, d := crc << 8, x << 12, x << 5;
    OnXor(a, b, m);
    OnXor(Add(a, b), d, m);
    OnXor(Add(Add(a, b), d), x, m);
  }

  /** The register with a byte added to its high half. */
  function TopAdded(crc: bv16, w: bv16): bv16 {
    Add(crc, w << 8)
  }

  lemma TopAddedHigh(crc: bv16, w: bv16)
    requires w & 0xFF00 == 0
    ensures Add(High(crc), w) == High(TopAdded(crc, w))
  {
  }

  lemma TopAddedLow(crc: bv16, w: bv16, m: bv16)
    requires m & 0xFF00 == 0
    ensures On(TopAdded(crc, w), m) == On(crc, m)
  {
  }

  lemma OnHighByte(c: bv16, i: int)
    ensures On(High(c), Mask(i)) == (i < 16 && On(c, Mask(i - 8)))
  {
    if 0 <= i < 16 {
      hide On, Mask;
      MaskLeft8(i);
      OnShifted(c, Mask(i));
    } else {
      OnNothing(High(c));
      OnNothing(c);
    }
  }

  lemma OnFold(c: bv16, i: int)
    ensures On(CcittFold(High(c)), Mask(i)) == FoldBit(Straight(c), i)
  {
    if 0 <= i < 16 {
      hide On, Mask, OneBit, Straight, Add, High;
      var m := Mask(i);
      MaskOneBit(i);
      MaskLeft4(i);
      OnXor(High(c), High(c) >> 4, m);
      OnShifted(High(c), m);
      OnHighByte(c, i);
      OnHighByte(c, i - 4);
      OnOutside(c, i - 8);
      OnOutside(c, i - 12);
    } else {
      OnNothing(CcittFold(High(c)));
    }
  }

  lemma OnOutside(c: bv16, i: int)
    ensures On(c, Mask(i)) == At(Straight(c), i)
  {
    OnNothing(c);
  }

  lemma LowMask(i: nat)
    requires i < 16
    ensures Mask(i + 8) & 0xFF00 == 0
  {
  }

  lemma OnCcittWord(crc: bv16, w: bv16, i: nat)
    requires w & 0xFF00 == 0 && i < 16
    ensures On(CcittWord(crc, w), Mask(i)) == CcittRow(Straight(TopAdded(crc, w)), i)
  {
    var c := TopAdded(crc, w);
    LowMask(i);
    hide On, Mask, CcittMix, CcittFold, FoldBit, Straight, TopAdded, At, Add, High;
    TopAddedHigh(crc, w);
    OnMix(crc, CcittFold(High(c)), i);
    TopAddedLow(crc, w, Mask(i + 8));
    OnOutside(c, i + 8);
    OnFold(c, i + 12);
    OnFold(c, i + 5);
    OnFold(c, i);
  }

  lemma CcittWordZeros(crc: bv16, w: bv16, n: nat)
    requires w & 0xFF00 == 0 && n == 4
    ensures Straight(CcittWord(crc, w)) == CcittZeros(CcittZeros(Straight(TopAdded(crc, w)), n), n)
  {
    hide On, Mask, CcittWord, TopAdded, Straight, CcittZeros, CcittZerosBit, CcittRow;
    var s := Straight(TopAdded(crc, w));
    forall i | 0 <= i < DEGREE
      ensures Straight(CcittWord(crc, w))[i] == CcittZeros(CcittZeros(s, n), n)[i]
    {
      OnCcittWord(crc, w, i);
      CcittRowIsEightZeros(s, n, i);
    }
  }

  lemma TopAddedBits(crc: bv16, w: bv16)
    ensures Straight(TopAdded(crc, w)) == Xor(Straight(crc), Straight(w)[8..] + Zeros(8))
  {
    hide Straight, Xor, Zeros;
    var l, r := Straight(TopAdded(crc, w)), Xor(Straight(crc), Straight(w)[8..] + Zeros(8));
    forall i | 0 <= i < DEGREE
      ensures l[i] == r[i]
    {
      OnTopAdded(crc, w, i);
    }
  }

  lemma OnTopAdded(crc: bv16, w: bv16, i: nat)
    requires i < 16
    ensures On(TopAdded(crc, w), Mask(i)) == (On(crc, Mask(i)) != (i < 8 && On(w, Mask(i + 8))))
  {
    OnBeyond(w, i + 8);
    hide On, OneBit, Mask, Add;
    MaskOneBit(i);
    OnXor(crc, w << 8, Mask(i));
    OnShifted(w, Mask(i));
    MaskRight8(i);
  }

  lemma OnBeyond(c: bv16, i: int)
    ensures !(0 <= i < 16) ==> !On(c, Mask(i))
  {
    OnNothing(c);
  }

  lemma CcittByteSteps(crc: bv16, b: bv8, n: nat)
    requires n == 4
    ensures Straight(CcittByte(crc, b)) == Feed(Straight(crc), ByteMsb(b), CCITT_POLY)
  {
    hide CcittWord, TopAdded, Straight, Feed, Xor, Zeros, CcittZeros;
    var r, m, w := Straight(crc), ByteMsb(b), b as bv16;
    CcittWordZeros(crc, w, n);
    TopAddedBits(crc, w);
    CcittEightZeros(Xor(r, m + Zeros(8)), n);
    FeedAbsorbs(r, m, CCITT_POLY);
  }

  /** The byte step of ccitt_crc16 is eight steps of the divider, most significant bit first. */
  lemma CcittByteFeeds(crc: bv16, b: bv8)
    ensures Straight(CcittByte(crc, b)) == Feed(Straight(crc), ByteMsb(b), CCITT_POLY)
  {
    hide *;
    CcittByteSteps(crc, b, 4);
  }

  // ---------------------------------------------------------------- Modbus: one shift is one divider step

  lemma OnModbusBit(c: bv16, i: nat)
    requires i < 16
    ensures On(ModbusBit(c), Mask(i)) == (On(c, Mask(i - 1)) != (On(c, Mask(15)) && On(0xA001, Mask(i))))
  {
    MaskLeft1(i);
    MaskOneBit(i);
    OnModbusMask(c, Mask(i));
    assert Mask(15) == 1;
    hide On, Mask;
  }

  lemma OnModbusMask(c: bv16, m: bv16)
    requires OneBit(m)
    ensures On(ModbusBit(c), m) == (On(c, m << 1) != (On(c, 1) && On(0xA001, m)))
  {
  }

  lemma ModbusTaps(i: nat)
    requires i < 16
    ensures On(0xA001, Mask(15 - i)) == MODBUS_POLY[i]
  {
    assert MODBUS_POLY[i] == (i in {0, 13, 15});
  }

  lemma ModbusBitAt(c: bv16, i: nat)
    requires i < 16
    ensures On(ModbusBit(c), Mask(15 - i))
            == ((i < 15 && On(c, Mask(15 - (i + 1)))) != (On(c, Mask(15)) && MODBUS_POLY[i]))
  {
    OnBeyond(c, -1);
    hide On, Mask, ModbusBit;
    OnModbusBit(c, 15 - i);
    ModbusTaps(i);
  }

  lemma ModbusBitShifts(c: bv16)
    ensures Reflected(ModbusBit(c)) == Shift(Reflected(c), false, MODBUS_POLY)
  {
    hide Xor, Gate, Reflected, On, ModbusBit, Mask;
    var s := Reflected(c);
    var up, gate := s[1..] + [false], Gate(s[0], MODBUS_POLY);
    var l, r := Reflected(ModbusBit(c)), Shift(s, false, MODBUS_POLY);
    forall i | 0 <= i < DEGREE
      ensures l[i] == r[i]
    {
      ModbusBitAt(c, i);
      assert r[i] == (up[i] != gate[i]);
      assert up[i] == (i < 15 && s[i + 1]);
      assert gate[i] == (s[0] && MODBUS_POLY[i]);
    }
  }

  lemma {:induction false} ModbusBitsFeed(c: bv16, n: nat)
    ensures Reflected(ModbusBits(c, n)) == Feed(Reflected(c), Zeros(n), MODBUS_POLY)
  {
    hide Reflected, ModbusBit, Shift, Zeros;
    if n != 0 {
      ModbusBitsFeed(c, n - 1);
      ModbusBitShifts(ModbusBits(c, n - 1));
      assert Zeros(n)[..n - 1] == Zeros(n - 1);
    }
  }

  lemma LowAddedBits(crc: bv16, w: bv16)
    requires w & 0xFF00 == 0
    ensures Reflected(Add(crc, w)) == Xor(Reflected(crc), Reflected(w)[..8] + Zeros(8))
  {
    hide Reflected, Xor, Zeros, On, OneBit, Mask, Add;
    var l, r := Reflected(Add(crc, w)), Xor(Reflected(crc), Reflected(w)[..8] + Zeros(8));
    forall i | 0 <= i < DEGREE
      ensures l[i] == r[i]
    {
      MaskOneBit(15 - i);
      OnXor(crc, w, Mask(15 - i));
      if 8 <= i {
        HighClear(w, 15 - i);
      }
    }
  }

  /** The byte step of modbus_crc16x is eight steps of the divider, least significant bit first. */
  lemma ModbusByteFeeds(crc: bv16, b: bv8)
    ensures Reflected(ModbusByte(crc, b)) == Feed(Reflected(crc), ByteLsb(b), MODBUS_POLY)
  {
    hide Reflected, Feed, Xor, Zeros, ModbusBits, Add;
    var w := b as bv16;
    LowAddedBits(crc, w);
    ModbusBitsFeed(Add(crc, w), BYTE_BITS);
    FeedAbsorbs(Reflected(crc), ByteLsb(b), MODBUS_POLY);
  }

  // ---------------------------------------------------------------- whole messages

  lemma {:induction false} CcittFeeds(msg: Bytes)
    ensures Straight(CcittCrc(msg)) == Feed(Straight(0), BitsMsb(msg), CCITT_POLY)
  {
    hide Straight, CcittByte, Shift, ByteMsb;
    if msg != [] {
      var m, b := msg[..|msg| - 1], msg[|msg| - 1];
      CcittFeeds(m);
      CcittByteFeeds(CcittCrc(m), b);
      FeedConcat(Straight(0), BitsMsb(m), ByteMsb(b), CCITT_POLY);
    }
  }

  lemma {:induction false} ModbusFeeds(msg: Bytes)
    ensures Reflected(ModbusCrc(msg)) == Feed(Reflected(0xFFFF), BitsLsb(msg), MODBUS_POLY)
  {
    hide Reflected, ModbusByte, Shift, ByteLsb;
    if msg != [] {
      var m, b := msg[..|msg| - 1], msg[|msg| - 1];
      ModbusFeeds(m);
      ModbusByteFeeds(ModbusCrc(m), b);
      FeedConcat(Reflected(0xFFFF), BitsLsb(m), ByteLsb(b), MODBUS_POLY);
    }
  }

  lemma ZeroRegister()
    ensures Straight(0) == Zeros(DEGREE)
  {
  }

  /** ccitt_crc16 is the remainder of M(x) * x^16, and the only one. */
  lemma CcittIsTheRemainder(msg: Bytes, r: Bits)
    ensures IsRemainder(r, Zeros(DEGREE), BitsMsb(msg), CCITT_POLY) <==> r == Straight(CcittCrc(msg))
  {
    hide Feed, CcittCrc, BitsMsb, IsRemainder, Zeros;
    ZeroRegister();
    CcittFeeds(msg);
    RemainderIsFeed(r, Zeros(DEGREE), BitsMsb(msg), CCITT_POLY);
  }

  /** modbus_crc16x is the remainder of M(x) * x^16 with the first 16 dividend bits inverted. */
  lemma ModbusIsTheRemainder(msg: Bytes, r: Bits)
    ensures IsRemainder(r, Reflected(0xFFFF), BitsLsb(msg), MODBUS_POLY) <==> r == Reflected(ModbusCrc(msg))
  {
    hide Feed, Reflected, ModbusCrc, BitsLsb, IsRemainder, Zeros;
    ModbusFeeds(msg);
    RemainderIsFeed(r, Reflected(0xFFFF), BitsLsb(msg), MODBUS_POLY);
  }

  /** Two messages have the same ccitt_crc16 exactly if their polynomials leave the same remainders. */
  lemma CcittEqualIff(a: Bytes, b: Bytes)
    ensures CcittCrc(a) == CcittCrc(b) <==>
            forall r :: IsRemainder(r, Zeros(DEGREE), BitsMsb(a), CCITT_POLY) <==> IsRemainder(r, Zeros(DEGREE), BitsMsb(b), CCITT_POLY)
  {
    hide CcittCrc, BitsMsb, IsRemainder, Zeros, Straight;
    forall r
      ensures IsRemainder(r, Zeros(DEGREE), BitsMsb(a), CCITT_POLY) <==> r == Straight(CcittCrc(a))
      ensures IsRemainder(r, Zeros(DEGREE), BitsMsb(b), CCITT_POLY) <==> r == Straight(CcittCrc(b))
    {
      CcittIsTheRemainder(a, r);
      CcittIsTheRemainder(b, r);
    }
    if Straight(CcittCrc(a)) == Straight(CcittCrc(b)) {
      StraightInjective(CcittCrc(a), CcittCrc(b));
    } else {
      assert IsRemainder(Straight(CcittCrc(a)), Zeros(DEGREE), BitsMsb(a), CCITT_POLY);
    }
  }

  /** The same for modbus_crc16x, with the first 16 dividend bits inverted. */
  lemma ModbusEqualIff(a: Bytes, b: Bytes)
    ensures ModbusCrc(a) == ModbusCrc(b) <==>
            forall r :: IsRemainder(r, Reflected(0xFFFF), BitsLsb(a), MODBUS_POLY) <==> IsRemainder(r, Reflected(0xFFFF), BitsLsb(b), MODBUS_POLY)
  {
    hide ModbusCrc, BitsLsb, IsRemainder, Reflected;
    forall r
      ensures IsRemainder(r, Reflected(0xFFFF), BitsLsb(a), MODBUS_POLY) <==> r == Reflected(ModbusCrc(a))
      ensures IsRemainder(r, Reflected(0xFFFF), BitsLsb(b), MODBUS_POLY) <==> r == Reflected(ModbusCrc(b))
    {
      ModbusIsTheRemainder(a, r);
      ModbusIsTheRemainder(b, r);
    }
    if Reflected(ModbusCrc(a)) == Reflected(ModbusCrc(b)) {
      ReflectedInjective(ModbusCrc(a), ModbusCrc(b));
    } else {
      assert IsRemainder(Reflected(ModbusCrc(a)), Reflected(0xFFFF), BitsLsb(a), MODBUS_POLY);
    }
  }

  /** Two messages that differ only inside a window of at most 16 consecutive bits. */
  ghost predicate BurstApart(a: Bits, b: Bits) {
    exists before, w1, w2, after ::
      |w1| == |w2| <= DEGREE && w1 != w2 && a == before + w1 + after && b == before + w2 + after
  }

  /** Two messages of the same length that differ in an odd number of bits. */
  ghost predicate OddApart(a: Bits, b: Bits) {
    |a| == |b| && Distance(a, b) % 2 == 1
  }

  lemma RegistersDiffer(reg: Bits, a: Bits, b: Bits, g: Bits)
    requires |reg| == |g| == DEGREE && g[DEGREE - 1] && Parity(g)
    requires BurstApart(a, b) || OddApart(a, b)
    ensures Feed(reg, a, g) != Feed(reg, b, g)
  {
    hide Feed, Parity, Distance;
    if BurstApart(a, b) {
      var before, w1, w2, after :|
        |w1| == |w2| <= DEGREE && w1 != w2 && a == before + w1 + after && b == before + w2 + after;
      BurstDetected(reg, before, w1, w2, after, g);
    } else {
      OddErrorDetected(reg, a, b, g);
    }
  }

  lemma PolysHaveEvenWeight()
    ensures Parity(CCITT_POLY) && Parity(MODBUS_POLY)
  {
    ParityOfPoly(CCITT_POLY, 3, 10);
    ParityOfPoly(MODBUS_POLY, 0, 13);
  }

  lemma ParityOfPoly(g: Bits, i: nat, j: nat)
    requires |g| == DEGREE && i < j < DEGREE - 1
    requires forall k :: 0 <= k < DEGREE ==> g[k] == (k in {i, j, 15})
    ensures Parity(g)
  {
    ParityPrefix(g, i, j, DEGREE);
    assert g[..DEGREE] == g;
  }

  lemma {:induction false} ParityPrefix(g: Bits, i: nat, j: nat, n: nat)
    requires |g| == DEGREE && i < j < DEGREE - 1 && n <= DEGREE
    requires forall k :: 0 <= k < DEGREE ==> g[k] == (k in {i, j, 15})
    ensures Parity(g[..n]) == ((i < n && n <= j) || n == DEGREE)
  {
    if n != 0 {
      ParityPrefix(g, i, j, n - 1);
      assert g[..n][..n - 1] == g[..n - 1];
    }
  }

  lemma CcittDetects(a: Bytes, b: Bytes)
    requires BurstApart(BitsMsb(a), BitsMsb(b)) || OddApart(BitsMsb(a), BitsMsb(b))
    ensures CcittCrc(a) != CcittCrc(b)
  {
    hide Feed, Straight, CcittCrc, BitsMsb, BurstApart, OddApart, Parity;
    CcittFeeds(a);
    CcittFeeds(b);
    PolysHaveEvenWeight();
    RegistersDiffer(Straight(0), BitsMsb(a), BitsMsb(b), CCITT_POLY);
  }

  lemma ModbusDetects(a: Bytes, b: Bytes)
    requires BurstApart(BitsLsb(a), BitsLsb(b)) || OddApart(BitsLsb(a), BitsLsb(b))
    ensures ModbusCrc(a) != ModbusCrc(b)
  {
    hide Feed, Reflected, ModbusCrc, BitsLsb, BurstApart, OddApart, Parity;
    ModbusFeeds(a);
    ModbusFeeds(b);
    PolysHaveEvenWeight();
    RegistersDiffer(Reflected(0xFFFF), BitsLsb(a), BitsLsb(b), MODBUS_POLY);
  }

  /** Two messages differ only inside the bytes [i, i + 2). */
  lemma CcittDetectsTwoBytes(before: Bytes, w1: Bytes, w2: Bytes, after: Bytes)
    requires |w1| == |w2| <= 2 && w1 != w2
    ensures CcittCrc(before + w1 + after) != CcittCrc(before + w2 + after)
  {
    hide BitsMsb, CcittCrc;
    BitsMsbConcat(before + w1, after);
    BitsMsbConcat(before, w1);
    BitsMsbConcat(before + w2, after);
    BitsMsbConcat(before, w2);
    if BitsMsb(w1) == BitsMsb(w2) {
      BitsMsbInjective(w1, w2);
    }
    var a, b, v1, v2, z := BitsMsb(before + w1 + after), BitsMsb(before + w2 + after), BitsMsb(w1), BitsMsb(w2), BitsMsb(after);
    assert a == BitsMsb(before) + v1 + z && b == BitsMsb(before) + v2 + z && |v1| == |v2| <= DEGREE && v1 != v2;
    assert BurstApart(a, b);
    CcittDetects(before + w1 + after, before + w2 + after);
  }

  lemma {:induction false} BitsMsbConcat(a: Bytes, b: Bytes)
    ensures BitsMsb(a + b) == BitsMsb(a) + BitsMsb(b)
  {
    hide ByteMsb;
    if b == [] {
      assert a + b == a;
    } else {
      var n := |b| - 1;
      assert (a + b)[..|a| + n] == a + b[..n];
      BitsMsbConcat(a, b[..n]);
    }
  }

  lemma {:induction false} BitsMsbInjective(a: Bytes, b: Bytes)
    requires |a| == |b| && BitsMsb(a) == BitsMsb(b)
    ensures a == b
  {
    hide ByteMsb;
    if a != [] {
      var n := |a| - 1;
      var p, q := BitsMsb(a[..n]), BitsMsb(b[..n]);
      assert BitsMsb(a)[..8 * n] == p && BitsMsb(b)[..8 * n] == q;
      assert BitsMsb(a)[8 * n..] == ByteMsb(a[n]) && BitsMsb(b)[8 * n..] == ByteMsb(b[n]);
      BitsMsbInjective(a[..n], b[..n]);
      ByteMsbInjective(a[n], b[n]);
      assert a == a[..n] + [a[n]] && b == b[..n] + [b[n]];
    }
  }

  lemma ByteMsbInjective(a: bv8, b: bv8)
    requires ByteMsb(a) == ByteMsb(b)
    ensures a == b
  {
    hide On, Mask, Straight;
    var v, w := a as bv16, b as bv16;
    forall i | 0 <= i < 16
      ensures On(v, Mask(i)) == On(w, Mask(i))
    {
      if i < 8 {
        HighClear(v, i);
        HighClear(w, i);
      } else {
        assert ByteMsb(a)[i - 8] == ByteMsb(b)[i - 8];
      }
    }
    SameBits(v, w);
  }

  // ---------------------------------------------------------------- what the rotate-and-add sum sees

  lemma RotateAddInjective(s: bv8, t: bv8, b: bv8)
    requires s != t
    ensures RotateAdd(s, b) != RotateAdd(t, b)
  {
    var u, v := (s << 1) | (s >> 7), (t << 1) | (t >> 7);
    assert u != v;
  }

  lemma RotateAddByte(s: bv8, x: bv8, y: bv8)
    requires x != y
    ensures RotateAdd(s, x) != RotateAdd(s, y)
  {
    AddInjective((s << 1) | (s >> 7), x, y);
  }

  lemma AddInjective(r: bv8, x: bv8, y: bv8)
    requires x != y
    ensures r + x != r + y
  {
    assert (r + x) - r == x && (r + y) - r == y;
  }

  /** grbl_crc8 sees every change of a single byte. */
  lemma {:induction false} ChecksumDetectsOneByte(before: Bytes, x: bv8, y: bv8, after: Bytes)
    requires x != y
    ensures Checksum(before + [x] + after) != Checksum(before + [y] + after)
  {
    hide RotateAdd;
    var a, b := before + [x] + after, before + [y] + after;
    if after == [] {
      assert a[..|a| - 1] == before && b[..|b| - 1] == before;
      RotateAddByte(Checksum(before), x, y);
    } else {
      var n := |after| - 1;
      assert a[..|a| - 1] == before + [x] + after[..n];
      assert b[..|b| - 1] == before + [y] + after[..n];
      ChecksumDetectsOneByte(before, x, y, after[..n]);
      RotateAddInjective(Checksum(a[..|a| - 1]), Checksum(b[..|b| - 1]), after[n]);
    }
  }
}
