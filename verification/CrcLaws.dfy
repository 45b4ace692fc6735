/** What the CRC detects, at any frame length, and that framing round-trips. */
module CrcLaws {
  import opened Octets
  import opened RtuCodec

  // ------------------------------------------------------------------ one shift

  lemma ShiftInjective(x: bv16, y: bv16)
    requires Shift(x) == Shift(y)
    ensures x == y
  {
  }

  function Xor(a: bv16, b: bv16): bv16 {
    a ^ b
  }

  function Half(x: bv16): bv16 {
    x >> 1
  }

  predicate Odd(x: bv16) {
    x & 1 != 0
  }

  lemma ShiftMeans(x: bv16)
    ensures Shift(x) == if Odd(x) then Xor(Half(x), POLYNOMIAL) else Half(x)
  {
  }

  lemma XorHalves(x: bv16, y: bv16)
    ensures Half(Xor(x, y)) == Xor(Half(x), Half(y))
  {
  }

  lemma XorParity(x: bv16, y: bv16)
    ensures Odd(Xor(x, y)) <==> Odd(x) != Odd(y)
  {
  }

  lemma XorAssociative(a: bv16, b: bv16, c: bv16)
    ensures Xor(Xor(a, b), c) == Xor(a, Xor(b, c))
  {
  }

  lemma XorCommutative(a: bv16, b: bv16)
    ensures Xor(a, b) == Xor(b, a)
  {
  }

  lemma XorSelf(a: bv16)
    ensures Xor(a, a) == 0
  {
  }

  lemma XorNone(a: bv16)
    ensures Xor(0, a) == a
  {
  }

  /** A value folded in twice drops out. */
  lemma XorTwice(a: bv16, b: bv16)
    ensures Xor(a, Xor(a, b)) == b && Xor(Xor(b, a), a) == b
  {
    hide Xor;
    XorAssociative(a, a, b);
    XorAssociative(b, a, a);
    XorSelf(a);
    XorNone(b);
    XorCommutative(b, 0);
  }

  lemma XorMoves(a: bv16, b: bv16, p: bv16)
    ensures Xor(Xor(a, b), p) == Xor(Xor(a, p), b)
  {
    hide Xor;
    XorAssociative(a, b, p);
    XorAssociative(a, p, b);
    XorCommutative(b, p);
  }

  lemma XorCancels(a: bv16, b: bv16, p: bv16)
    ensures Xor(Xor(a, p), Xor(b, p)) == Xor(a, b)
  {
    hide Xor;
    XorAssociative(a, p, Xor(b, p));
    XorCommutative(b, p);
    XorTwice(p, b);
  }

  /** The register is linear: the difference of two registers shifts by itself. */
  lemma ShiftLinear(x: bv16, y: bv16)
    ensures Shift(Xor(x, y)) == Xor(Shift(x), Shift(y))
  {
    hide Shift, Xor, Half, Odd;
    ShiftMeans(x);
    ShiftMeans(y);
    ShiftMeans(Xor(x, y));
    XorHalves(x, y);
    XorParity(x, y);
    XorCancels(Half(x), Half(y), POLYNOMIAL);
    XorMoves(Half(x), Half(y), POLYNOMIAL);
    XorAssociative(Half(x), Half(y), POLYNOMIAL);
  }

  lemma ShiftZero()
    ensures Shift(0) == 0
  {
  }

  // ------------------------------------------------------------------ eight shifts

  lemma {:induction false} ShiftsInjective(x: bv16, y: bv16, n: nat)
    requires Shifts(x, n) == Shifts(y, n)
    ensures x == y
  {
    hide Shift;
    if n > 0 {
      ShiftInjective(Shifts(x, n - 1), Shifts(y, n - 1));
      ShiftsInjective(x, y, n - 1);
    }
  }

  lemma {:induction false} ShiftsLinear(x: bv16, y: bv16, n: nat)
    ensures Shifts(Xor(x, y), n) == Xor(Shifts(x, n), Shifts(y, n))
  {
    hide Shift, Xor;
    if n > 0 {
      ShiftsLinear(x, y, n - 1);
      ShiftLinear(Shifts(x, n - 1), Shifts(y, n - 1));
    }
  }

  lemma {:induction false} ShiftsZero(n: nat)
    ensures Shifts(0, n) == 0
  {
    hide Shift;
    if n > 0 {
      ShiftsZero(n - 1);
      ShiftZero();
    }
  }

  lemma EightShifts(x: bv16)
    ensures Shifts(x, 8) == Shift(Shift(Shift(Shift(Shift(Shift(Shift(Shift(x))))))))
  {
    hide Shift;
    assert Shifts(x, 0) == x;
    assert Shifts(x, 1) == Shift(x);
    assert Shifts(x, 2) == Shift(Shifts(x, 1));
    assert Shifts(x, 3) == Shift(Shifts(x, 2));
    assert Shifts(x, 4) == Shift(Shifts(x, 3));
    assert Shifts(x, 5) == Shift(Shifts(x, 4));
    assert Shifts(x, 6) == Shift(Shifts(x, 5));
    assert Shifts(x, 7) == Shift(Shifts(x, 6));
  }

  lemma HighByteDirect(b: bv8)
    ensures Shift(Shift(Shift(Shift(Shift(Shift(Shift(Shift((b as bv16) << 8)))))))) == b as bv16
  {
  }

  /** A byte in the upper half comes down unchanged. */
  lemma HighByteFalls(b: bv8)
    ensures Shifts((b as bv16) << 8, 8) == b as bv16
  {
    hide Shift;
    EightShifts((b as bv16) << 8);
    HighByteDirect(b);
  }

  // ------------------------------------------------------------------ residues

  lemma JoinedParts(crc: bv16)
    ensures Joined(Low(crc), High(crc)) == crc
  {
  }

  lemma LowXor(low: bv8, high: bv8)
    ensures Xor(Joined(low, high), low as bv16) == (high as bv16) << 8
  {
  }

  lemma OwnTrailer(low: bv8, high: bv8)
    ensures Fold(Fold(Joined(low, high), low), high) == 0
  {
    hide Shift, Shifts, Xor, Joined, Fold;
    FoldIs(Joined(low, high), low);
    LowXor(low, high);
    HighByteFalls(high);
    FoldIs(high as bv16, high);
    XorSelf(high as bv16);
    ShiftsZero(8);
  }

  lemma ForeignTrailer(crc: bv16, low: bv8, high: bv8)
    requires Fold(Fold(crc, low), high) == 0
    ensures Joined(low, high) == crc
  {
    hide Shift, Shifts, Xor, Joined, Fold;
    var own := Joined(low, high);
    OwnTrailer(low, high);
    FoldInjective(Fold(crc, low), Fold(own, low), high);
    FoldInjective(crc, own, low);
  }

  lemma FoldInjective(x: bv16, y: bv16, byte: bv8)
    requires Fold(x, byte) == Fold(y, byte)
    ensures x == y
  {
    hide Shift, Shifts, Xor, Fold;
    FoldIs(x, byte);
    FoldIs(y, byte);
    ShiftsInjective(Xor(x, byte as bv16), Xor(y, byte as bv16), 8);
    XorBoth(x, y, byte as bv16);
  }

  /** What folding the two CRC bytes leaves: zero exactly for the register's own bytes. */
  lemma TrailerResidue(crc: bv16, low: bv8, high: bv8)
    ensures Fold(Fold(crc, low), high) == 0 <==> Joined(low, high) == crc
  {
    hide Fold, Joined;
    OwnTrailer(low, high);
    if Fold(Fold(crc, low), high) == 0 {
      ForeignTrailer(crc, low, high);
    }
  }

  lemma FoldIs(crc: bv16, byte: bv8)
    ensures Fold(crc, byte) == Shifts(Xor(crc, byte as bv16), 8)
  {
    hide Shifts;
  }

  lemma XorBoth(a: bv16, b: bv16, p: bv16)
    requires Xor(a, p) == Xor(b, p)
    ensures a == b
  {
    hide Xor;
    XorTwice(p, a);
    XorTwice(p, b);
  }

  lemma {:induction false} CrcJoins(crc: bv16, first: Bytes, rest: Bytes)
    ensures CrcFrom(crc, first + rest) == CrcFrom(CrcFrom(crc, first), rest)
    decreases |rest|
  {
    hide Fold;
    if rest == [] {
      assert first + rest == first;
    } else {
      var n := |rest| - 1;
      assert (first + rest)[..|first + rest| - 1] == first + rest[..n];
      CrcJoins(crc, first, rest[..n]);
    }
  }

  /** A frame is valid exactly when folding all of it, trailer included, leaves zero. */
  lemma ResidueTheorem(frame: Bytes)
    requires |frame| >= 4
    ensures VerifyCrc(frame) <==> Crc(frame) == 0
  {
    hide Fold, Joined;
    var n := |frame| - 2;
    var low, high := frame[n], frame[n + 1];
    assert frame[..n + 1][..n] == frame[..n];
    assert CrcFrom(0xFFFF, frame[..n + 1]) == Fold(CrcFrom(0xFFFF, frame[..n]), low);
    TrailerResidue(Crc(frame[..n]), low, high);
  }

  /** What append_crc produced verifies, exactly for payloads of two bytes or more. */
  lemma AppendVerifies(payload: Bytes)
    ensures VerifyCrc(AppendCrc(payload)) <==> |payload| >= 2
  {
    hide Crc, Joined, Low, High;
    var frame := AppendCrc(payload);
    assert frame[..|frame| - 2] == payload;
    JoinedParts(Crc(payload));
  }

  // ------------------------------------------------------------------ corruption

  /** The difference of two registers after folding equal bytes never vanishes. */
  lemma {:induction false} DifferenceLasts(x: bv16, y: bv16, data: Bytes)
    requires CrcFrom(x, data) == CrcFrom(y, data)
    ensures x == y
    decreases |data|
  {
    hide Fold;
    if data != [] {
      var n := |data| - 1;
      FoldInjective(CrcFrom(x, data[..n]), CrcFrom(y, data[..n]), data[n]);
      DifferenceLasts(x, y, data[..n]);
    }
  }

  /** The lowest s bits of a byte, which the line carries first. */
  function FirstBits(s: nat): bv8
    requires s <= 8
  {
    match s
    case 0 => 0x00 case 1 => 0x01 case 2 => 0x03 case 3 => 0x07 case 4 => 0x0F
    case 5 => 0x1F case 6 => 0x3F case 7 => 0x7F case _ => 0xFF
  }

  /** Differences of three bytes in a row that lie within the sixteen line bits from bit s
      of the first byte on. */
  predicate WithinSixteenBits(first: bv8, last: bv8, s: nat) {
    s <= 8 && first & FirstBits(s) == 0 && last & !FirstBits(s) == 0
  }

  /** The differences of three bytes leave no difference in the register. */
  predicate DifferencesCancel(first: bv8, second: bv8, last: bv8) {
    Xor(Shifts(first as bv16, 8), second as bv16) == Raised(last)
  }

  function Raised(b: bv8): bv16 {
    (b as bv16) << 8
  }

  function Difference(a: bv8, b: bv8): bv8 {
    a ^ b
  }

  /** The first byte's difference would have to come down as those of the other two. */
  lemma DifferencesVanish(first: bv8, second: bv8, last: bv8, s: nat)
    requires WithinSixteenBits(first, last, s) && DifferencesCancel(first, second, last)
    ensures first == 0 && second == 0 && last == 0
  {
    hide Shift, FirstBits;
    EightShifts(first as bv16);
    OneMask(s);
    DifferencesDirect(first, second, last, FirstBits(s));
  }

  lemma OneMask(s: nat)
    requires s <= 8
    ensures FirstBits(s) in {0x00, 0x01, 0x03, 0x07, 0x0F, 0x1F, 0x3F, 0x7F, 0xFF}
  {
  }

  lemma DifferencesDirect(first: bv8, second: bv8, last: bv8, mask: bv8)
    requires mask in {0x00, 0x01, 0x03, 0x07, 0x0F, 0x1F, 0x3F, 0x7F, 0xFF}
    requires first & mask == 0 && last & !mask == 0
    requires Xor(Shift(Shift(Shift(Shift(Shift(Shift(Shift(Shift(first as bv16)))))))), second as bv16)
             == (last as bv16) << 8
    ensures first == 0 && second == 0 && last == 0
  {
  }

  /** What two registers differ by after folding different bytes. */
  lemma FoldDifference(x: bv16, y: bv16, a: bv8, b: bv8)
    ensures Xor(Fold(x, a), Fold(y, b)) == Shifts(Xor(Xor(x, y), Difference(a, b) as bv16), 8)
  {
    hide Shift, Shifts, Xor, Fold;
    FoldIs(x, a);
    FoldIs(y, b);
    ShiftsLinear(Xor(x, a as bv16), Xor(y, b as bv16), 8);
    XorPairs(x, a as bv16, y, b as bv16);
    ByteDifference(a, b);
  }

  lemma XorPairs(x: bv16, a: bv16, y: bv16, b: bv16)
    ensures Xor(Xor(x, a), Xor(y, b)) == Xor(Xor(x, y), Xor(a, b))
  {
    hide Xor;
    XorAssociative(Xor(x, a), y, b);
    XorMoves(x, a, y);
    XorAssociative(Xor(x, y), a, b);
  }

  /** Equal registers behind three bytes each: the difference of the first byte came down
      as those of the other two. */
  lemma DifferencesMeet(crc: bv16, a: (bv8, bv8, bv8), b: (bv8, bv8, bv8))
    requires Fold(Fold(Fold(crc, a.0), a.1), a.2) == Fold(Fold(Fold(crc, b.0), b.1), b.2)
    ensures DifferencesCancel(Difference(a.0, b.0), Difference(a.1, b.1), Difference(a.2, b.2))
  {
    hide Shift, Shifts, Xor, Fold, Difference, Raised;
    var p, q := Fold(crc, a.0), Fold(crc, b.0);
    FoldDifference(crc, crc, a.0, b.0);
    FoldDifference(p, q, a.1, b.1);
    XorSelf(crc);
    XorNone(Difference(a.0, b.0) as bv16);
    LastByteFalls(Fold(p, a.1), Fold(q, b.1), a.2, b.2, Xor(Xor(p, q), Difference(a.1, b.1) as bv16));
  }

  lemma LastByteFalls(x: bv16, y: bv16, a: bv8, b: bv8, d: bv16)
    requires Fold(x, a) == Fold(y, b) && Xor(x, y) == Shifts(d, 8)
    ensures d == Raised(Difference(a, b))
  {
    hide Shift, Shifts, Xor, Fold, Difference;
    var e := Difference(a, b);
    FoldDifference(x, y, a, b);
    XorSelf(Fold(x, a));
    ShiftsZero(8);
    ShiftsInjective(Xor(Xor(x, y), e as bv16), 0, 8);
    XorZero(Xor(x, y), e as bv16);
    HighByteFalls(e);
    ShiftsInjective(d, Raised(e), 8);
  }

  /** Three bytes folded into the same register that differ within sixteen line bits end in
      the same register only when they are the same three bytes. */
  lemma BurstDistinguished(crc: bv16, a: (bv8, bv8, bv8), b: (bv8, bv8, bv8), s: nat)
    requires WithinSixteenBits(Difference(a.0, b.0), Difference(a.2, b.2), s)
    requires Fold(Fold(Fold(crc, a.0), a.1), a.2) == Fold(Fold(Fold(crc, b.0), b.1), b.2)
    ensures a == b
  {
    hide Shift, Shifts, Xor, Fold, WithinSixteenBits, Difference, DifferencesCancel;
    DifferencesMeet(crc, a, b);
    DifferencesVanish(Difference(a.0, b.0), Difference(a.1, b.1), Difference(a.2, b.2), s);
    SameByte(a.0, b.0);
    SameByte(a.1, b.1);
    SameByte(a.2, b.2);
  }

  lemma XorZero(a: bv16, b: bv16)
    requires Xor(a, b) == 0
    ensures a == b
  {
  }

  lemma ByteDifference(a: bv8, c: bv8)
    ensures Xor(a as bv16, c as bv16) == (a ^ c) as bv16
  {
  }

  lemma SameByte(a: bv8, c: bv8)
    requires Difference(a, c) == 0
    ensures a == c
  {
  }

  /** Two frames of the same length that differ only within sixteen line bits in a row,
      which can reach across three bytes. */
  predicate BurstApart(f: Bytes, g: Bytes, at: nat, s: nat) {
    && |f| == |g| && at + 3 <= |f|
    && f[..at] == g[..at] && f[at + 3..] == g[at + 3..]
    && WithinSixteenBits(Difference(f[at], g[at]), Difference(f[at + 2], g[at + 2]), s)
  }

  lemma BurstSplits(f: Bytes, at: nat)
    requires at + 3 <= |f|
    ensures Crc(f) == CrcFrom(Fold(Fold(Fold(Crc(f[..at]), f[at]), f[at + 1]), f[at + 2]), f[at + 3..])
  {
    hide Fold;
    var head, three, tail := f[..at], f[at..at + 3], f[at + 3..];
    assert f == (head + three) + tail;
    CrcJoins(0xFFFF, head + three, tail);
    CrcJoins(0xFFFF, head, three);
    ThreeFolds(Crc(head), three);
  }

  lemma ThreeFolds(crc: bv16, data: Bytes)
    requires |data| == 3
    ensures CrcFrom(crc, data) == Fold(Fold(Fold(crc, data[0]), data[1]), data[2])
  {
    hide Fold;
    assert data[..2][..1] == data[..1] && data[..1][..0] == [];
    assert CrcFrom(crc, data[..1]) == Fold(CrcFrom(crc, []), data[0]);
    assert CrcFrom(crc, data[..2]) == Fold(CrcFrom(crc, data[..1]), data[1]);
  }

  /** Two different frames that differ only within sixteen line bits, anywhere in the frame
      and at any length, leave different residues. */
  lemma BurstChangesCrc(f: Bytes, g: Bytes, at: nat, s: nat)
    requires BurstApart(f, g, at, s) && Crc(f) == Crc(g)
    ensures f == g
  {
    hide Fold, Crc, CrcFrom, WithinSixteenBits;
    BurstSplits(f, at);
    BurstSplits(g, at);
    var head := Crc(f[..at]);
    DifferenceLasts(Fold(Fold(Fold(head, f[at]), f[at + 1]), f[at + 2]),
                    Fold(Fold(Fold(head, g[at]), g[at + 1]), g[at + 2]), f[at + 3..]);
    BurstDistinguished(head, (f[at], f[at + 1], f[at + 2]), (g[at], g[at + 1], g[at + 2]), s);
    assert f == f[..at] + [f[at], f[at + 1], f[at + 2]] + f[at + 3..];
    assert g == g[..at] + [g[at], g[at + 1], g[at + 2]] + g[at + 3..];
  }

  /** Any corruption of a valid frame confined to sixteen line bits in a row, payload or
      trailer, is rejected. */
  lemma CorruptionRejected(f: Bytes, g: Bytes, at: nat, s: nat)
    requires VerifyCrc(f) && BurstApart(f, g, at, s) && f != g
    ensures !VerifyCrc(g)
  {
    hide Crc, WithinSixteenBits;
    ResidueTheorem(f);
    ResidueTheorem(g);
    if VerifyCrc(g) {
      BurstChangesCrc(f, g, at, s);
    }
  }

  /** In particular any corruption confined to two adjacent bytes. */
  lemma AdjacentBytesRejected(f: Bytes, g: Bytes, at: nat)
    requires VerifyCrc(f) && |f| == |g| && at + 2 <= |f| && f != g
    requires f[..at] == g[..at] && f[at + 2..] == g[at + 2..]
    ensures !VerifyCrc(g)
  {
    hide Crc, VerifyCrc;
    if at + 2 < |f| {
      assert f[at + 2..][0] == f[at + 2] && g[at + 2..][0] == g[at + 2];
      assert f[at + 3..] == f[at + 2..][1..] && g[at + 3..] == g[at + 2..][1..];
      assert WithinSixteenBits(Difference(f[at], g[at]), Difference(f[at + 2], g[at + 2]), 0);
      CorruptionRejected(f, g, at, 0);
    } else {
      LongEnough(f);
      assert f[..at][at - 1] == f[at - 1] && g[..at][at - 1] == g[at - 1];
      assert f[..at - 1] == f[..at][..at - 1] && g[..at - 1] == g[..at][..at - 1];
      assert WithinSixteenBits(Difference(f[at - 1], g[at - 1]), Difference(f[at + 1], g[at + 1]), 8);
      CorruptionRejected(f, g, at - 1, 8);
    }
  }

  lemma LongEnough(f: Bytes)
    requires VerifyCrc(f)
    ensures |f| >= 4
  {
  }

  // ------------------------------------------------------------------ responses

  /** Building fails exactly for too many values or a value that is not a register. */
  lemma ResponseFails(slave: int, values: seq<int>)
    ensures Response(slave, values).Err? <==>
              |values| > 125 || exists i :: 0 <= i < |values| && !(0 <= values[i] <= 65535)
  {
    BadExists(values);
  }

  lemma {:induction false} BadExists(values: seq<int>)
    ensures FirstBad(values).Some? <==> exists i :: 0 <= i < |values| && !IsRegister(values[i])
  {
    if values != [] {
      var n := |values| - 1;
      BadExists(values[..n]);
      if i :| 0 <= i < |values| && !IsRegister(values[i]) {
        if i < n {
          assert !IsRegister(values[..n][i]);
        }
      }
    }
  }

  lemma LastRegister(data: Bytes, high: bv8, low: bv8)
    requires |data| % 2 == 0
    ensures Registers(data + [high, low]) == Registers(data) + [Word(high, low)]
  {
    hide Word;
    assert (data + [high, low])[..|data| + 2 - 2] == data;
  }

  lemma {:induction false} RegistersRoundTrip(values: seq<int>)
    requires forall i :: 0 <= i < |values| ==> IsRegister(values[i])
    ensures |RegisterBytes(values)| == 2 * |values| && Registers(RegisterBytes(values)) == values
  {
    hide Byte, Word, Registers;
    if values == [] {
      NoRegisters();
    } else {
      var n := |values| - 1;
      RegistersRoundTrip(values[..n]);
      WordRoundTrip(values[n]);
      LastRegister(RegisterBytes(values[..n]), Byte(values[n] / 256), Byte(values[n]));
      assert values == values[..n] + [values[n]];
    }
  }

  lemma NoRegisters()
    ensures Registers([]) == []
  {
  }

  /** A master decodes a built response to exactly the values it was built from. */
  lemma ResponseRoundTrip(slave: int, values: seq<int>)
    requires |values| <= MAX_REGISTERS && forall i :: 0 <= i < |values| ==> IsRegister(values[i])
    ensures Response(slave, values).Ok?
    ensures VerifyCrc(Response(slave, values).value)
    ensures Decoded(Response(slave, values).value, slave) == Some(values)
  {
    hide Crc, Byte, Value, Word, Low, High, VerifyCrc, RegisterBytes, Registers;
    ResponseFails(slave, values);
    RegistersRoundTrip(values);
    var payload := [Byte(slave), READ_INPUT_REGISTERS, Byte(2 * |values|)] + RegisterBytes(values);
    var frame := AppendCrc(payload);
    AppendVerifies(payload);
    ByteRoundTrip(2 * |values|);
    assert frame[3..|frame| - 2] == RegisterBytes(values);
  }

  /** The registers on the line, in order, each high byte first. */
  lemma {:induction false} RegistersInOrder(values: seq<int>, i: nat)
    requires i < |values| && forall j :: 0 <= j < |values| ==> IsRegister(values[j])
    ensures |RegisterBytes(values)| == 2 * |values|
    ensures Value(RegisterBytes(values)[2 * i]) == values[i] / 256
    ensures Value(RegisterBytes(values)[2 * i + 1]) == values[i] % 256
  {
    hide Byte, Value;
    var n := |values| - 1;
    RegistersRoundTrip(values);
    RegistersRoundTrip(values[..n]);
    if i < n {
      RegistersInOrder(values[..n], i);
    } else {
      ByteRoundTrip(values[n] / 256);
      ByteRoundTrip(values[n]);
    }
  }

  /** A built response, byte by byte: address, function 04, byte count, and the registers
      high byte first, before the trailer. */
  lemma ResponseOnWire(slave: int, values: seq<int>)
    requires Response(slave, values).Ok?
    ensures var f := Response(slave, values).value;
      && |f| == 2 * |values| + 5 && Value(f[0]) == slave % 256 && f[1] == 0x04 && Value(f[2]) == 2 * |values|
      && forall i :: 0 <= i < |values| ==> 256 * Value(f[3 + 2 * i]) + Value(f[4 + 2 * i]) == values[i]
  {
    hide Crc, Byte, Value, Low, High, RegisterBytes, FirstBad;
    ResponseFails(slave, values);
    RegistersRoundTrip(values);
    ByteRoundTrip(slave);
    ByteRoundTrip(2 * |values|);
    var f := Response(slave, values).value;
    forall i | 0 <= i < |values| ensures 256 * Value(f[3 + 2 * i]) + Value(f[4 + 2 * i]) == values[i] {
      RegistersInOrder(values, i);
      assert f[3 + 2 * i] == RegisterBytes(values)[2 * i] && f[4 + 2 * i] == RegisterBytes(values)[2 * i + 1];
    }
  }
}
