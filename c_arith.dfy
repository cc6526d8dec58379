/**
 * The C integer semantics the firmware relies on, written out over Dafny's
 * unbounded integers: unsigned 32-bit wrap-around, conversion to int16_t,
 * division and remainder that truncate toward zero, and bitwise AND.
 */
module CArith {

  const TWO16: nat := 0x1_0000
  const TWO32: nat := 0x1_0000_0000
  const TWO64: nat := 0x1_0000_0000_0000_0000

  predicate IsU32(x: int) { 0 <= x < TWO32 }

  /** The values of a `uint32_t` variable. */
  type Uint32 = x: int | 0 <= x < 0x1_0000_0000

  /** The value an unsigned 32-bit expression takes: `x` reduced modulo 2^32. */
  function U32(x: int): (r: nat)
    ensures IsU32(r)
    ensures (x - r) % TWO32 == 0
    ensures IsU32(x) ==> r == x
  {
    x % TWO32
  }

  /** The value an unsigned 64-bit expression takes: `x` reduced modulo 2^64. */
  function U64(x: int): (r: nat)
    ensures r < TWO64
    ensures (x - r) % TWO64 == 0
    ensures 0 <= x < TWO64 ==> r == x
  {
    x % TWO64
  }

  /** Conversion to int16_t (two's complement, as the target compiler does it). */
  function Int16(x: int): (r: int)
    ensures -0x8000 <= r < 0x8000
    ensures (x - r) % TWO16 == 0
    ensures -0x8000 <= x < 0x8000 ==> r == x
  {
    var m := x % TWO16;
    if m >= 0x8000 then m - TWO16 else m
  }

  function Abs(x: int): nat { if x < 0 then -x else x }

  /** C's `a / d` for a positive divisor: the quotient is truncated toward zero. */
  function CDiv(a: int, d: nat): (q: int)
    requires d > 0
    ensures Abs(q) == Abs(a) / d
    ensures q != 0 ==> (q < 0 <==> a < 0)
  {
    if a >= 0 then a / d else -((-a) / d)
  }

  /** C's `a % d` for a positive divisor: the remainder takes the sign of `a`. */
  function CRem(a: int, d: nat): (r: int)
    requires d > 0
    ensures a == CDiv(a, d) * d + r
    ensures Abs(r) < d
    ensures r != 0 ==> (r < 0 <==> a < 0)
  {
    if a >= 0 then a % d else -((-a) % d)
  }

  function Pow2(k: nat): (p: nat)
    ensures p >= 1
  {
    if k == 0 then 1 else 2 * Pow2(k - 1)
  }

  /** Bitwise AND of two non-negative integers, one bit at a time from the least significant. */
  function BitAnd(a: nat, b: nat): (r: nat)
    ensures r <= a && r <= b
  {
    if a == 0 || b == 0 then 0
    else 2 * BitAnd(a / 2, b / 2) + (if a % 2 == 1 && b % 2 == 1 then 1 else 0)
  }

  lemma {:induction false} SplitMod(x: nat, m: nat)
    requires m > 0
    ensures x % (2 * m) == 2 * ((x / 2) % m) + x % 2
  {
    var q := x / 2;
    var r := x % 2;
    var a := q / m;
    var c := q % m;
    assert x == 2 * q + r;
    assert q == a * m + c;
    assert x == (2 * m) * a + (2 * c + r);
    assert 0 <= 2 * c + r < 2 * m;
    DivModUnique(x, 2 * m, a, 2 * c + r);
  }

  /** Euclidean division has exactly one quotient/remainder pair. */
  lemma DivModUnique(x: int, m: nat, q: int, r: int)
    requires m > 0 && 0 <= r < m && x == m * q + r
    ensures x % m == r && x / m == q
  {
    var q', r' := x / m, x % m;
    var d := q - q';
    assert m * d == r' - r by {
      assert m * q - m * q' == m * (q - q');
    }
    if d > 0 {
      MulAtLeast(m, d);
    }
  }

  lemma MulAtLeast(m: nat, d: nat)
    requires d >= 1
    ensures m * d >= m
  {
    assert m * d == m + m * (d - 1);
  }

  /**
   * Masking with `2^k - 1` keeps the low `k` bits: for a power-of-two size the
   * bitmask wrap of a ring index is reduction modulo the size.
   */
  lemma {:induction false} MaskIsMod(x: nat, k: nat)
    ensures BitAnd(x, Pow2(k) - 1) == x % Pow2(k)
  {
    if k == 0 {
    } else if x == 0 {
    } else {
      var m := Pow2(k - 1);
      var b := Pow2(k) - 1;
      assert b == 2 * (m - 1) + 1;
      assert b / 2 == m - 1 && b % 2 == 1;
      assert BitAnd(x, b) == 2 * BitAnd(x / 2, m - 1) + x % 2;
      MaskIsMod(x / 2, k - 1);
      SplitMod(x, m);
    }
  }

  /** Reducing modulo `a` after reducing modulo a multiple `a * b` changes nothing. */
  lemma ModOfMultiple(x: int, a: nat, b: nat)
    requires a > 0 && b > 0
    ensures (x % (a * b)) % a == x % a
  {
    var ab := a * b;
    var q, r := x / ab, x % ab;
    var q2, r2 := r / a, r % a;
    assert x == ab * q + r;
    assert r == a * q2 + r2;
    assert x == a * (b * q + q2) + r2 by {
      assert ab * q == a * (b * q);
      assert a * (b * q) + a * q2 == a * (b * q + q2);
    }
    DivModUnique(x, a, b * q + q2, r2);
  }

  lemma {:induction false} Pow2Add(j: nat, i: nat)
    ensures Pow2(j) * Pow2(i) == Pow2(j + i)
    decreases i
  {
    if i > 0 {
      Pow2Add(j, i - 1);
      assert Pow2(j) * Pow2(i) == 2 * (Pow2(j) * Pow2(i - 1));
    }
  }

  /** Reducing modulo 2^j after reducing modulo a larger power of two 2^k changes nothing. */
  lemma ModPow2Nested(x: int, j: nat, k: nat)
    requires j <= k
    ensures (x % Pow2(k)) % Pow2(j) == x % Pow2(j)
  {
    Pow2Add(j, k - j);
    ModOfMultiple(x, Pow2(j), Pow2(k - j));
  }

  /** Floor division brackets its dividend. */
  lemma DivFloor(a: nat, d: nat)
    requires d > 0
    ensures (a / d) * d <= a < (a / d + 1) * d
  {
    assert a == d * (a / d) + a % d;
  }

  lemma DivAtMost(a: nat, d: nat)
    requires d > 0
    ensures a / d <= a
  {
    DivFloor(a, d);
    if a / d > a {
      MulAtLeast(a / d, d);
    }
  }
}
