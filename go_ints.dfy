/** Go's fixed-width unsigned integers, as ranges of the unbounded integers. */
module GoInts {

  const UINT32_MODULUS := 0x1_0000_0000

  /** Go's `byte`. */
  newtype uint8 = x: int | 0 <= x < 0x100

  /** Go's `uint32`. */
  newtype uint32 = x: int | 0 <= x < UINT32_MODULUS

  /** `x + 1` on a uint32 (`atomic.AddUint32(&x, 1)`): wraps from 2^32 - 1
      to 0. */
  function Increment(x: uint32): (r: uint32)
    ensures x as int < UINT32_MODULUS - 1 ==> r as int == x as int + 1
    ensures x as int == UINT32_MODULUS - 1 ==> r == 0
  {
    if x as int == UINT32_MODULUS - 1 then 0 else x + 1
  }

  /** `x` after `n` increments. */
  function Advance(x: uint32, n: nat): uint32
  {
    if n == 0 then x else Increment(Advance(x, n - 1))
  }

  /** The increment is addition modulo 2^32. */
  lemma IncrementMod(x: uint32)
    ensures Increment(x) as int == (x as int + 1) % UINT32_MODULUS
  {
  }

  /** Adding one to a number moves its remainder modulo 2^32 on by one,
      wrapping to 0. */
  lemma ModStep(y: int)
    ensures y % UINT32_MODULUS + 1 < UINT32_MODULUS ==> (y + 1) % UINT32_MODULUS == y % UINT32_MODULUS + 1
    ensures y % UINT32_MODULUS + 1 == UINT32_MODULUS ==> (y + 1) % UINT32_MODULUS == 0
  {
    var m := UINT32_MODULUS;
    var q, r := y / m, y % m;
    assert y == q * m + r;
    if r + 1 < m {
      assert y + 1 == q * m + (r + 1);
    } else {
      assert y + 1 == (q + 1) * m;
    }
  }

  /** `n` increments add `n` modulo 2^32. */
  lemma {:induction false} AdvanceMod(x: uint32, n: nat)
    ensures Advance(x, n) as int == (x as int + n) % UINT32_MODULUS
  {
    if n > 0 {
      var y := Advance(x, n - 1);
      AdvanceMod(x, n - 1);
      assert y as int == (x as int + (n - 1)) % UINT32_MODULUS;
      ModStep(x as int + (n - 1));
      assert Advance(x, n) == Increment(y);
    }
  }

  /** Fewer than 2^32 increments apart, two counter values differ. */
  lemma AdvanceDistinct(x: uint32, i: nat, j: nat)
    requires i < j < i + UINT32_MODULUS
    ensures Advance(x, i) != Advance(x, j)
  {
    AdvanceMod(x, i);
    AdvanceMod(x, j);
    var a, b := x as int + i, x as int + j;
    var m := UINT32_MODULUS;
    var qa, qb := a / m, b / m;
    assert a == qa * m + a % m && b == qb * m + b % m;
    assert qa <= qb <= qa + 1;
    if qb == qa {
      assert b % m - a % m == b - a;
    } else {
      assert a % m - b % m == m - (b - a);
    }
  }
}
