/** The cubic smoothstep i^2 (3 n - 2 i): it rises from 0 to n^3, and how fast. */
module Cubics {
  import opened Arithmetic

  function Cubic(count: int, index: int): int {
    index * index * (3 * count - 2 * index)
  }

  lemma CubicExpands(n: int, i: int)
    ensures Cubic(n, i) == 3 * (n * (i * i)) - 2 * (i * (i * i))
  {
    var square := i * i;
    assert square * (3 * n - 2 * i) == 3 * (n * square) - 2 * (i * square);
  }

  lemma NextPowers(n: int, i: int)
    ensures (i + 1) * (i + 1) == i * i + 2 * i + 1
    ensures n * ((i + 1) * (i + 1)) == n * (i * i) + 2 * (n * i) + n
    ensures (i + 1) * ((i + 1) * (i + 1)) == i * (i * i) + 3 * (i * i) + 3 * i + 1
  {
    var square := i * i;
    assert n * (square + 2 * i + 1) == n * square + 2 * (n * i) + n;
    assert (i + 1) * (square + 2 * i + 1) == i * square + 3 * square + 3 * i + 1;
  }

  lemma RiseValue(n: int, i: int)
    ensures Cubic(n, i + 1) - Cubic(n, i) == 6 * (i * (n - i - 1)) + 3 * n - 2
  {
    hide Cubic;
    CubicExpands(n, i);
    CubicExpands(n, i + 1);
    NextPowers(n, i);
    assert i * (n - i - 1) == n * i - i * i - i;
  }

  lemma RiseGap(n: int, i: int)
    ensures 3 * (n * n) - 1 - 2 * (6 * (i * (n - i - 1)) + 3 * n - 2) == 3 * ((n - 2 * i - 1) * (n - 2 * i - 1))
  {
    var m := n - 1;
    assert i * (n - i - 1) == m * i - i * i;
    assert (m - 2 * i) * (m - 2 * i) == m * m - 4 * (m * i) + 4 * (i * i);
    assert n * n == m * m + 2 * m + 1;
  }

  /** The cubic rises, by at most one and a half times an even share. */
  lemma CubicStep(count: int, index: int)
    requires 0 <= index < count
    ensures 0 <= Cubic(count, index + 1) - Cubic(count, index)
    ensures 2 * (Cubic(count, index + 1) - Cubic(count, index)) <= 3 * (count * count)
  {
    hide Cubic;
    RiseValue(count, index);
    RiseGap(count, index);
    SquareNonNegative(count - 2 * index - 1);
    ProductOrder(index, 0, count - index - 1);
  }

  lemma {:induction false} CubicRises(count: int, low: int, high: int)
    requires 0 <= low <= high <= count
    ensures Cubic(count, low) <= Cubic(count, high)
    decreases high - low
  {
    if low < high {
      CubicStep(count, low);
      CubicRises(count, low + 1, high);
    }
  }

  lemma CubicEnds(count: int)
    ensures Cubic(count, 0) == 0
    ensures Cubic(count, count) == count * count * count
  {
  }

  /** Over several points, at most one and a half times their even share. */
  lemma {:induction false} CubicSpan(count: int, low: int, high: int)
    requires 0 <= low <= high <= count
    ensures 2 * (Cubic(count, high) - Cubic(count, low)) <= 3 * (count * count) * (high - low)
    decreases high - low
  {
    hide Cubic;
    if low < high {
      CubicStep(count, low);
      CubicSpan(count, low + 1, high);
      var share := 3 * (count * count);
      assert share * (high - low) == share + share * (high - (low + 1));
    }
  }
}
