/** Bytes of integers and back. */
module Octets {

  function Doubled(bits: bv8, odd: bool): bv8 {
    (bits << 1) | (if odd then 1 else 0)
  }

  /** The low k bits of an integer, most significant first. */
  function LowBits(n: int, k: nat): bv8
    decreases k
  {
    if k == 0 then 0 else Doubled(LowBits(n / 2, k - 1), n % 2 == 1)
  }

  /** The low eight bits of an integer. */
  function Byte(n: int): bv8 {
    LowBits(n, 8)
  }

  function Value(byte: bv8): (value: int)
    ensures 0 <= value < 256
  {
    byte as int
  }

  /** An unsigned 16-bit value, high byte first. */
  function Word(high: bv8, low: bv8): (word: int)
    ensures 0 <= word <= 0xFFFF
  {
    Value(high) * 256 + Value(low)
  }

  function Weight(k: nat): (w: int)
    ensures w >= 1
  {
    if k == 0 then 1 else 2 * Weight(k - 1)
  }

  lemma DoubledValue(bits: bv8, odd: bool)
    requires Value(bits) < 128
    ensures Value(Doubled(bits, odd)) == 2 * Value(bits) + if odd then 1 else 0
  {
  }

  lemma {:induction false} WeightsGrow(k: nat)
    requires k <= 8
    ensures Weight(k) <= 256 && (k < 8 ==> Weight(k) <= 128)
  {
    assert Weight(1) == 2 && Weight(2) == 4 && Weight(4) == 16 && Weight(6) == 64 && Weight(7) == 128;
    assert Weight(3) == 8 && Weight(5) == 32;
  }

  lemma Halved(n: int, value: int, weight: int, rest: int)
    requires n / 2 == value + weight * rest
    ensures n == 2 * value + n % 2 + (2 * weight) * rest
  {
    assert (2 * weight) * rest == 2 * (weight * rest);
  }

  /** The bits are the remainder: n is their value plus a multiple of their weight. */
  lemma {:induction false} LowBitsValue(n: int, k: nat) returns (rest: int)
    requires k <= 8
    ensures n == Value(LowBits(n, k)) + Weight(k) * rest
    ensures Value(LowBits(n, k)) < Weight(k)
    decreases k
  {
    hide Doubled, Value;
    if k == 0 {
      rest := n;
      ZeroValue();
    } else {
      rest := LowBitsValue(n / 2, k - 1);
      WeightsGrow(k - 1);
      DoubledValue(LowBits(n / 2, k - 1), n % 2 == 1);
      Halved(n, Value(LowBits(n / 2, k - 1)), Weight(k - 1), rest);
    }
  }

  lemma ZeroValue()
    ensures Value(0) == 0
  {
  }

  lemma ByteRoundTrip(n: int)
    ensures Value(Byte(n)) == n % 256
  {
    hide Value, LowBits;
    var rest := LowBitsValue(n, 8);
    assert Weight(4) == 16 && Weight(6) == 64 && Weight(8) == 256;
  }

  lemma WordRoundTrip(value: int)
    requires 0 <= value <= 0xFFFF
    ensures Word(Byte(value / 256), Byte(value)) == value
  {
    hide Byte, Value;
    ByteRoundTrip(value / 256);
    ByteRoundTrip(value);
  }
}
