/** The bitwise integer square root used for braking speeds. */
module SquareRoot {

  const UINT64_LIMIT := 0x1_0000_0000_0000_0000
  const UINT32_MAX := 0xFFFF_FFFF

  predicate IsRoot(r: int, n: int) {
    0 <= r && r * r <= n < (r + 1) * (r + 1)
  }

  lemma NextDigit(n: nat, r: int)
    requires IsRoot(r, n / 4)
    ensures (2 * r) * (2 * r) <= n < (2 * r + 2) * (2 * r + 2)
  {
    assert (2 * r) * (2 * r) == 4 * (r * r);
    assert (2 * r + 2) * (2 * r + 2) == 4 * ((r + 1) * (r + 1));
  }

  /** The integer square root, digit by digit in base four. */
  function Root(n: nat): (r: nat)
    ensures IsRoot(r, n)
  {
    if n == 0 then 0
    else
      NextDigit(n, Root(n / 4));
      var half := 2 * Root(n / 4);
      if (half + 1) * (half + 1) <= n then half + 1 else half
  }

  lemma RootUnique(a: int, b: int, n: int)
    requires IsRoot(a, n) && IsRoot(b, n)
    ensures a == b
  {
    if a < b {
      Squares(a + 1, b);
      assert false;
    } else if b < a {
      Squares(b + 1, a);
      assert false;
    }
  }

  lemma Squares(a: int, b: int)
    requires 0 <= a <= b
    ensures a * a <= b * b
  {
    assert b * b - a * a == (b - a) * (b + a);
    assert (b - a) * (b + a) >= 0;
  }

  /** A larger radicand has no smaller root. */
  lemma {:induction false} RootMonotone(m: nat, n: nat)
    requires m <= n
    ensures Root(m) <= Root(n)
  {
    hide Root;
    if Root(n) < Root(m) {
      Squares(Root(n) + 1, Root(m));
      assert false;
    }
  }

  function Power2(k: nat): (p: int)
    ensures p >= 1
  {
    if k == 0 then 1 else 2 * Power2(k - 1)
  }

  lemma Powers()
    ensures Power2(32) == 0x1_0000_0000 && Power2(31) == 0x8000_0000
  {
    assert Power2(8) == 256;
    assert Power2(16) == 0x1_0000;
    assert Power2(24) == 0x100_0000;
  }

  /** The bit the algorithm looks at when k digits are still unknown. */
  function Bit(k: nat): int {
    if k == 0 then 0 else Power2(k - 1) * Power2(k - 1)
  }

  lemma BitShifts(k: nat)
    requires k > 0
    ensures Bit(k) / 4 == Bit(k - 1) && Bit(k) > 0
  {
    if k > 1 {
      var q := Power2(k - 2);
      assert Power2(k - 1) == 2 * q;
      assert Bit(k) == 4 * (q * q);
    }
    assert Power2(k - 1) * Power2(k - 1) >= 1;
  }

  /** Digits found so far: s, in units of 2^k. */
  predicate Digits(n: int, value: int, result: int, s: int, k: nat) {
    var p := Power2(k);
    0 <= s && result == s * p && value == n - s * s && s * s <= n < (s + p) * (s + p)
  }

  lemma DigitTest(n: int, value: int, result: int, s: int, k: nat)
    requires k > 0 && Digits(n, value, result, s, k)
    ensures value >= result + Bit(k) ==>
              Digits(n, value - (result + Bit(k)), result / 2 + Bit(k), s + Power2(k - 1), k - 1)
    ensures value < result + Bit(k) ==> Digits(n, value, result / 2, s, k - 1)
  {
    var q := Power2(k - 1);
    assert s * (2 * q) == 2 * (s * q);
    assert (s + q) * (s + q) == s * s + 2 * (s * q) + q * q;
    assert (s + q) * q == s * q + q * q;
    assert result / 2 == s * q;
  }

  /** The value has at most k base-four digits. */
  predicate Short(n: int, k: nat) {
    0 <= n < Power2(k) * Power2(k)
  }

  lemma Shorter(n: int, k: nat)
    requires Short(n, k) && Bit(k) > n
    ensures k > 0 && Short(n, k - 1) && Bit(k) / 4 == Bit(k - 1)
  {
    if k > 0 {
      BitShifts(k);
    }
  }

  lemma NonzeroBit(k: nat)
    requires Bit(k) != 0
    ensures k > 0 && Bit(k) / 4 == Bit(k - 1)
  {
    BitShifts(k);
  }

  /** The fixed-iteration loop computes the root of every 64-bit value. */
  method IntegerSqrt(radicand: int) returns (root: int)
    requires 0 <= radicand < UINT64_LIMIT
    ensures IsRoot(root, radicand) && root == Root(radicand) && root <= UINT32_MAX
  {
    hide Power2, Bit, Digits, Short, IsRoot, Root;
    var value, result, bit := radicand, 0, 0x4000_0000_0000_0000;
    ghost var k: nat := 32;
    ghost var s := 0;
    StartBit(radicand);
    while bit > value
      invariant bit == Bit(k) && value == radicand && Short(radicand, k)
      decreases k
    {
      Shorter(radicand, k);
      bit := bit / 4;
      k := k - 1;
    }
    StartDigits(radicand, k);
    while bit != 0
      invariant bit == Bit(k) && Digits(radicand, value, result, s, k)
      decreases k
    {
      NonzeroBit(k);
      DigitTest(radicand, value, result, s, k);
      if value >= result + bit {
        value := value - (result + bit);
        result := result / 2 + bit;
        s := s + Power2(k - 1);
      } else {
        result := result / 2;
      }
      bit := bit / 4;
      k := k - 1;
    }
    EndDigits(radicand, value, result, s, k);
    root := if result > UINT32_MAX then UINT32_MAX else result;
  }

  lemma StartBit(n: int)
    requires 0 <= n < UINT64_LIMIT
    ensures Bit(32) == 0x4000_0000_0000_0000 && Short(n, 32)
  {
    Powers();
  }

  lemma StartDigits(n: int, k: nat)
    requires Short(n, k)
    ensures Digits(n, n, 0, 0, k)
  {
  }

  lemma EndDigits(n: int, value: int, result: int, s: int, k: nat)
    requires Bit(k) == 0 && Digits(n, value, result, s, k) && 0 <= n < UINT64_LIMIT
    ensures IsRoot(result, n) && result == Root(n) && result <= UINT32_MAX
  {
    hide Root;
    if k > 0 {
      BitShifts(k);
      assert false;
    }
    assert IsRoot(result, n);
    RootUnique(result, Root(n), n);
    if result > UINT32_MAX {
      Squares(UINT32_MAX + 1, result);
      assert false;
    }
  }
}
