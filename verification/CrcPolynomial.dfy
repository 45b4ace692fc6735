/** The CRC as what it is defined to be: the remainder of a polynomial division over bits.
    The message goes on the line low bit first; its first sixteen coefficients are inverted,
    sixteen zeros follow it, and x^16 + x^15 + x^2 + 1 divides it. */
module CrcPolynomial {
  import opened Octets
  import opened RtuCodec
  import opened CrcLaws

  type Bits = seq<bool>

  // ------------------------------------------------------------------ the division

  /** The generator below x^16: x^15 + x^2 + 1. */
  const GENERATOR: Bits := [
    true, false, false, false, false, false, false, false, false, false, false, false, false, true, false, true]

  const ONES: Bits := [
    true, true, true, true, true, true, true, true, true, true, true, true, true, true, true, true]

  const ZEROS: Bits := [
    false, false, false, false, false, false, false, false,
    false, false, false, false, false, false, false, false]

  /** Sum of two polynomials, bit by bit. */
  function Sum(a: Bits, b: Bits): (s: Bits)
    requires |a| == |b|
    ensures |s| == |a| && forall i :: 0 <= i < |s| ==> s[i] == (a[i] != b[i])
  {
    seq(|a|, i requires 0 <= i < |a| => a[i] != b[i])
  }

  /** Long division, highest coefficient first: as long as there are more than sixteen
      coefficients, a leading one is cancelled by the generator and dropped. */
  function Remainder(p: Bits): (r: Bits)
    requires |p| >= 16
    ensures |r| == 16
    decreases |p|
  {
    if |p| == 16 then p
    else if p[0] then Remainder(Sum(p[1..17], GENERATOR) + p[17..])
    else Remainder(p[1..])
  }

  /** A byte as the line carries it. */
  function LineBits(b: bv8): (bits: Bits)
    ensures |bits| == 8
  {
    [b & 0x01 != 0, b & 0x02 != 0, b & 0x04 != 0, b & 0x08 != 0,
     b & 0x10 != 0, b & 0x20 != 0, b & 0x40 != 0, b & 0x80 != 0]
  }

  function Message(data: Bytes): (bits: Bits)
    ensures |bits| == 8 * |data|
  {
    if data == [] then [] else LineBits(data[0]) + Message(data[1..])
  }

  /** A polynomial with its first sixteen coefficients changed. */
  function Fronted(a: Bits, p: Bits): (q: Bits)
    requires |a| == 16 <= |p|
    ensures |q| == |p|
  {
    Sum(a, p[..16]) + p[16..]
  }

  predicate Bit(crc: bv16, mask: bv16) {
    crc & mask != 0
  }

  /** The register low bit first, as its two bytes go on the line. */
  function RegisterBits(crc: bv16): (bits: Bits)
    ensures |bits| == 16
  {
    [Bit(crc, 0x0001), Bit(crc, 0x0002), Bit(crc, 0x0004), Bit(crc, 0x0008),
     Bit(crc, 0x0010), Bit(crc, 0x0020), Bit(crc, 0x0040), Bit(crc, 0x0080),
     Bit(crc, 0x0100), Bit(crc, 0x0200), Bit(crc, 0x0400), Bit(crc, 0x0800),
     Bit(crc, 0x1000), Bit(crc, 0x2000), Bit(crc, 0x4000), Bit(crc, 0x8000)]
  }

  // ------------------------------------------------------------------ one shift, one division step

  lemma HalfBits(crc: bv16)
    ensures RegisterBits(Half(crc)) == RegisterBits(crc)[1..] + [false]
  {
  }

  lemma GeneratorBits()
    ensures RegisterBits(POLYNOMIAL) == GENERATOR
  {
  }

  function Mask(i: nat): bv16
    requires i < 16
  {
    match i
    case 0 => 0x0001 case 1 => 0x0002 case 2 => 0x0004 case 3 => 0x0008
    case 4 => 0x0010 case 5 => 0x0020 case 6 => 0x0040 case 7 => 0x0080
    case 8 => 0x0100 case 9 => 0x0200 case 10 => 0x0400 case 11 => 0x0800
    case 12 => 0x1000 case 13 => 0x2000 case 14 => 0x4000 case 15 => 0x8000
  }

  predicate SingleBit(mask: bv16) {
    mask & (mask - 1) == 0
  }

  lemma MasksSingle(i: nat)
    requires i < 16
    ensures SingleBit(Mask(i))
  {
  }

  lemma BitAt(crc: bv16, i: nat)
    requires i < 16
    ensures RegisterBits(crc)[i] == Bit(crc, Mask(i))
  {
    hide Bit;
  }

  function Masked(x: bv16, mask: bv16): bv16 {
    x & mask
  }

  lemma MaskedEither(x: bv16, mask: bv16)
    requires SingleBit(mask)
    ensures Masked(x, mask) == 0 || Masked(x, mask) == mask
  {
  }

  lemma MaskedSum(x: bv16, y: bv16, mask: bv16)
    ensures Masked(Xor(x, y), mask) == Xor(Masked(x, mask), Masked(y, mask))
  {
  }

  lemma BitMeans(x: bv16, mask: bv16)
    ensures Bit(x, mask) <==> Masked(x, mask) != 0
  {
  }

  /** One bit of a sum. */
  lemma XorBit(x: bv16, y: bv16, mask: bv16)
    requires SingleBit(mask)
    ensures Bit(Xor(x, y), mask) == (Bit(x, mask) != Bit(y, mask))
  {
    hide Bit, Xor, SingleBit, Masked;
    BitMeans(x, mask);
    BitMeans(y, mask);
    BitMeans(Xor(x, y), mask);
    MaskedEither(x, mask);
    MaskedEither(y, mask);
    MaskedSum(x, y, mask);
    XorNone(0);
    XorNone(mask);
    XorSelf(mask);
    XorCommutative(0, mask);
  }

  lemma XorBits(x: bv16, y: bv16)
    ensures RegisterBits(Xor(x, y)) == Sum(RegisterBits(x), RegisterBits(y))
  {
    hide Bit, Xor, SingleBit, Mask, RegisterBits;
    forall i | 0 <= i < 16
      ensures RegisterBits(Xor(x, y))[i] == (RegisterBits(x)[i] != RegisterBits(y)[i])
    {
      BitAt(x, i);
      BitAt(y, i);
      BitAt(Xor(x, y), i);
      MasksSingle(i);
      XorBit(x, y, Mask(i));
    }
  }

  lemma OddBits(crc: bv16)
    requires Odd(crc)
    ensures RegisterBits(Shift(crc)) == Sum(RegisterBits(crc)[1..] + [false], GENERATOR)
  {
    hide RegisterBits, Shift, Half, Xor, GENERATOR;
    ShiftMeans(crc);
    HalfBits(crc);
    GeneratorBits();
    XorBits(Half(crc), POLYNOMIAL);
  }

  lemma EvenBits(crc: bv16)
    requires !Odd(crc)
    ensures RegisterBits(Shift(crc)) == RegisterBits(crc)[1..] + [false]
  {
  }

  lemma SumMoves(a: Bits, b: Bits, c: Bits)
    requires |a| == |b| == |c|
    ensures Sum(Sum(a, b), c) == Sum(Sum(a, c), b)
  {
  }

  /** A shift of the register is a step of the division. */
  lemma ShiftDivides(crc: bv16, p: Bits)
    requires |p| >= 16
    ensures Remainder(Fronted(RegisterBits(crc), [false] + p)) == Remainder(Fronted(RegisterBits(Shift(crc)), p))
  {
    hide RegisterBits, Shift;
    var bits := RegisterBits(crc);
    var q := Fronted(bits, [false] + p);
    FirstBit(crc);
    var moved := bits[1..] + [false];
    assert q[0] == bits[0];
    assert q[1..] == Fronted(moved, p);
    if Odd(crc) {
      OddBits(crc);
      assert q[1..17] == Sum(moved, p[..16]) && q[17..] == p[16..];
      SumMoves(moved, p[..16], GENERATOR);
    } else {
      EvenBits(crc);
    }
  }

  lemma FirstBit(crc: bv16)
    ensures RegisterBits(crc)[0] == Odd(crc)
  {
  }

  lemma {:induction false} ShiftsDivide(crc: bv16, n: nat, p: Bits)
    requires |p| >= 16
    ensures Remainder(Fronted(RegisterBits(crc), Padding(n) + p)) == Remainder(Fronted(RegisterBits(Shifts(crc, n)), p))
    decreases n
  {
    hide RegisterBits, Shift, Remainder, Fronted;
    if n == 0 {
      assert Padding(0) + p == p;
    } else {
      assert Padding(n) + p == Padding(n - 1) + ([false] + p);
      ShiftsDivide(crc, n - 1, [false] + p);
      ShiftDivides(Shifts(crc, n - 1), p);
    }
  }

  function Padding(n: nat): (bits: Bits)
    ensures |bits| == n && forall i :: 0 <= i < n ==> !bits[i]
  {
    seq(n, i => false)
  }

  // ------------------------------------------------------------------ one byte, and all of them

  lemma ByteBits(crc: bv16, b: bv8)
    ensures RegisterBits(Xor(crc, b as bv16)) == Sum(RegisterBits(crc), LineBits(b) + Padding(8))
  {
    LowByteBits(b);
    XorBits(crc, b as bv16);
  }

  lemma LowByteBits(b: bv8)
    ensures RegisterBits(b as bv16) == LineBits(b) + Padding(8)
  {
  }

  lemma FrontMoves(a: Bits, bits: Bits, p: Bits)
    requires |a| == 16 && |bits| == 8 && |p| >= 16
    ensures Fronted(a, bits + p) == Fronted(Sum(a, bits + Padding(8)), Padding(8) + p)
  {
  }

  /** Folding a byte into the register divides its eight bits away. */
  lemma FoldDivides(crc: bv16, b: bv8, p: Bits)
    requires |p| >= 16
    ensures Remainder(Fronted(RegisterBits(crc), LineBits(b) + p)) == Remainder(Fronted(RegisterBits(Fold(crc, b)), p))
  {
    hide RegisterBits, LineBits, Shifts, Remainder, Fronted, Xor;
    FrontMoves(RegisterBits(crc), LineBits(b), p);
    ByteBits(crc, b);
    FoldIs(crc, b);
    ShiftsDivide(Xor(crc, b as bv16), 8, p);
  }

  lemma {:induction false} BytesDivide(crc: bv16, data: Bytes)
    ensures Remainder(Fronted(RegisterBits(crc), Message(data) + ZEROS)) == RegisterBits(CrcFrom(crc, data))
    decreases |data|
  {
    hide RegisterBits, LineBits, Fold, Remainder, Fronted;
    if data == [] {
      NothingLeft(crc);
      assert Message(data) + ZEROS == ZEROS;
    } else {
      assert Message(data) + ZEROS == LineBits(data[0]) + (Message(data[1..]) + ZEROS);
      FoldDivides(crc, data[0], Message(data[1..]) + ZEROS);
      BytesDivide(Fold(crc, data[0]), data[1..]);
      CrcJoins(crc, [data[0]], data[1..]);
      assert [data[0]] + data[1..] == data;
      OneByte(crc, data[0]);
    }
  }

  lemma OneByte(crc: bv16, b: bv8)
    ensures CrcFrom(crc, [b]) == Fold(crc, b)
  {
    hide Fold;
    assert [b][..0] == [];
  }

  lemma NothingLeft(crc: bv16)
    ensures Remainder(Fronted(RegisterBits(crc), ZEROS)) == RegisterBits(crc)
  {
    hide RegisterBits;
    assert Sum(RegisterBits(crc), ZEROS) == RegisterBits(crc);
    assert ZEROS[..16] == ZEROS && ZEROS[16..] == [];
  }

  lemma PresetBits(crc: bv16)
    ensures RegisterBits(crc) == ONES <==> crc == 0xFFFF
  {
  }

  /** The CRC of a payload of any length is the remainder of its polynomial. */
  lemma CrcIsRemainder(data: Bytes)
    ensures RegisterBits(Crc(data)) == Remainder(Fronted(ONES, Message(data) + ZEROS))
  {
    hide RegisterBits, Remainder, Fronted, CrcFrom;
    PresetBits(0xFFFF);
    BytesDivide(0xFFFF, data);
  }

  /** And its bits are all there is to the register. */
  lemma BitsDetermine(x: bv16, y: bv16)
    requires RegisterBits(x) == RegisterBits(y)
    ensures x == y
  {
    var a, b := RegisterBits(x), RegisterBits(y);
    assert forall i :: 0 <= i < 16 ==> a[i] == b[i];
  }

  // ------------------------------------------------------------------ published values

  const DIGITS: Bytes := [0x31, 0x32, 0x33, 0x34, 0x35, 0x36, 0x37, 0x38, 0x39]

  /** A request for all eight registers of slave 1. */
  const READ_ALL: Bytes := [0x01, 0x04, 0x00, 0x00, 0x00, 0x08]

  lemma Folded(crc: bv16, byte: bv8, folded: bv16)
    requires Shift(Shift(Shift(Shift(Shift(Shift(Shift(Shift(crc ^ (byte as bv16))))))))) == folded
    ensures Fold(crc, byte) == folded
  {
    hide Shift, Shifts;
    EightShifts(crc ^ (byte as bv16));
  }

  lemma Appended(crc: bv16, data: Bytes, byte: bv8, before: bv16, folded: bv16)
    requires CrcFrom(crc, data) == before
    requires Shift(Shift(Shift(Shift(Shift(Shift(Shift(Shift(before ^ (byte as bv16))))))))) == folded
    ensures CrcFrom(crc, data + [byte]) == folded
  {
    hide Shift, Fold;
    assert (data + [byte])[..|data|] == data;
    Folded(before, byte, folded);
  }

  /** The published check value of this CRC. */
  lemma DigitsCheck()
    ensures Crc(DIGITS) == 0x4B37
  {
    hide CrcFrom, Fold;
    NoBytes(0xFFFF);
    Appended(0xFFFF, [], 0x31, 0xFFFF, 0x947E);
    Appended(0xFFFF, [] + [0x31], 0x32, 0x947E, 0xF595);
    Appended(0xFFFF, [] + [0x31] + [0x32], 0x33, 0xF595, 0x7A75);
    Appended(0xFFFF, [] + [0x31] + [0x32] + [0x33], 0x34, 0x7A75, 0x30BA);
    Appended(0xFFFF, [] + [0x31] + [0x32] + [0x33] + [0x34], 0x35, 0x30BA, 0xA471);
    Appended(0xFFFF, [] + [0x31] + [0x32] + [0x33] + [0x34] + [0x35], 0x36, 0xA471, 0x32E4);
    Appended(0xFFFF, [] + [0x31] + [0x32] + [0x33] + [0x34] + [0x35] + [0x36], 0x37, 0x32E4, 0x9D73);
    Appended(0xFFFF, [] + [0x31] + [0x32] + [0x33] + [0x34] + [0x35] + [0x36] + [0x37], 0x38, 0x9D73, 0x37DD);
    Appended(0xFFFF, [] + [0x31] + [0x32] + [0x33] + [0x34] + [0x35] + [0x36] + [0x37] + [0x38], 0x39, 0x37DD, 0x4B37);
    assert [] + [0x31] + [0x32] + [0x33] + [0x34] + [0x35] + [0x36] + [0x37] + [0x38] + [0x39] == DIGITS;
  }

  lemma NoBytes(crc: bv16)
    ensures CrcFrom(crc, []) == crc
  {
  }

  /** The usual request as it is on the line, its trailer low byte first. */
  lemma ReadAllFrame()
    ensures AppendCrc(READ_ALL) == READ_ALL + [0xF1, 0xCC]
  {
    ReadAllCheck();
  }

  lemma ReadAllCheck()
    ensures Crc(READ_ALL) == 0xCCF1
  {
    hide CrcFrom, Fold;
    NoBytes(0xFFFF);
    Appended(0xFFFF, [], 0x01, 0xFFFF, 0x807E);
    Appended(0xFFFF, [] + [0x01], 0x04, 0x807E, 0xE301);
    Appended(0xFFFF, [] + [0x01] + [0x04], 0x00, 0xE301, 0xC022);
    Appended(0xFFFF, [] + [0x01] + [0x04] + [0x00], 0x00, 0xC022, 0x1940);
    Appended(0xFFFF, [] + [0x01] + [0x04] + [0x00] + [0x00], 0x00, 0x1940, 0xF018);
    Appended(0xFFFF, [] + [0x01] + [0x04] + [0x00] + [0x00] + [0x00], 0x08, 0xF018, 0xCCF1);
    assert [] + [0x01] + [0x04] + [0x00] + [0x00] + [0x00] + [0x08] == READ_ALL;
  }
}
