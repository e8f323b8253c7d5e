/**
 * The integer and bit helpers of quarkchain/utils.py: `check`, `int_left_most_bit`,
 * `masks_have_overlap`, `is_p2` and `p2_roundup`.
 *
 * Python integers are unbounded two's-complement values, so `&` is modelled by BitAnd
 * on `int`; Python's `//` and `%` by a positive divisor agree with Dafny's `/` and `%`.
 */
module Utils {
  import opened Results

  /** The exception `check` raises. */
  datatype Failure = AssertionError(msg: string)

  /** `check(condition, msg)`: raise AssertionError(msg) unless the condition holds. */
  function Check(condition: bool, msg: string := ""): (r: Result<(), Failure>)
    ensures r.Ok? <==> condition
    ensures r.Err? ==> r.error == AssertionError(msg)
  {
    if condition then Ok(()) else Err(AssertionError(msg))
  }

  function Pow2(k: nat): (r: nat)
    ensures r >= 1
  {
    if k == 0 then 1 else 2 * Pow2(k - 1)
  }

  lemma {:induction false} Pow2Monotonic(j: nat, k: nat)
    requires j < k
    ensures Pow2(j) < Pow2(k)
  {
    if j + 1 < k {
      Pow2Monotonic(j, k - 1);
    }
  }

  lemma {:induction false} Pow2Add(j: nat, k: nat)
    ensures Pow2(j + k) == Pow2(j) * Pow2(k)
  {
    if k > 0 {
      Pow2Add(j, k - 1);
    }
  }

  /** The number of binary digits of v: the smallest b with v < 2^b. */
  function BitLength(v: nat): (b: nat)
    ensures v == 0 <==> b == 0
    ensures v > 0 ==> Pow2(b - 1) <= v < Pow2(b)
  {
    if v == 0 then 0 else 1 + BitLength(v / 2)
  }

  /** The bit length is the only b with 2^(b-1) <= v < 2^b. */
  lemma BitLengthUnique(v: nat, b: nat)
    requires b >= 1 && Pow2(b - 1) <= v < Pow2(b)
    ensures BitLength(v) == b
  {
    var c := BitLength(v);
    if c < b {
      Pow2Monotonic(c, b - 1);
    } else if c > b {
      Pow2Monotonic(b, c - 1);
    }
  }

  /** `int_left_most_bit(v)`: halve v until it is zero, counting the steps. */
  method IntLeftMostBit(v: int) returns (b: nat)
    requires v >= 0
    ensures b == BitLength(v)
    ensures v == 0 ==> b == 0
    ensures v > 0 ==> Pow2(b - 1) <= v < Pow2(b)
  {
    var x := v;
    b := 0;
    while x != 0
      invariant x >= 0
      invariant b + BitLength(x) == BitLength(v)
      decreases x
    {
      x := x / 2;
      b := b + 1;
    }
  }

  /** v halved (Python `//= 2`) n times. */
  function HalvedTimes(v: int, n: nat): int
  {
    if n == 0 then v else HalvedTimes(v, n - 1) / 2
  }

  /**
   * For a negative argument the loop of `int_left_most_bit` never stops: floor halving
   * keeps a negative value negative (it reaches -1 and stays there), so `v != 0` holds
   * after any number of iterations.
   */
  lemma {:induction false} NegativeNeverReachesZero(v: int, n: nat)
    requires v < 0
    ensures HalvedTimes(v, n) < 0
  {
    if n > 0 {
      NegativeNeverReachesZero(v, n - 1);
    }
  }

  /** Distance from the nearest of the two fixed points 0 and -1 of floor halving. */
  function Magnitude(a: int): nat
  {
    if a >= 0 then a else -a - 1
  }

  /** Python's `a & b` on unbounded two's-complement integers, bit by bit from the bottom. */
  function BitAnd(a: int, b: int): int
    decreases Magnitude(a) + Magnitude(b)
  {
    if a == 0 || b == 0 then 0
    else if a == -1 then b
    else if b == -1 then a
    else 2 * BitAnd(a / 2, b / 2) + (if a % 2 == 1 && b % 2 == 1 then 1 else 0)
  }

  lemma {:induction false} BitAndSelf(a: nat)
    ensures BitAnd(a, a) == a
  {
    if a > 0 {
      BitAndSelf(a / 2);
    }
  }

  lemma {:induction false} BitAndNegative(a: int, b: int)
    requires a < 0 && b < 0
    ensures BitAnd(a, b) < 0
    decreases Magnitude(a) + Magnitude(b)
  {
    if a != -1 && b != -1 {
      BitAndNegative(a / 2, b / 2);
    }
  }

  lemma {:induction false} MulAtLeast(a: int, d: int)
    requires a >= 1 && d > 0
    ensures a * d >= d
  {
    if a > 1 {
      MulAtLeast(a - 1, d);
      assert a * d == (a - 1) * d + d;
    }
  }

  lemma MulTwice(s: int, p: int)
    ensures 2 * (s * p) == s * (2 * p)
  {
  }

  /** x == q * d + y with 0 <= y < d determines y as x % d. */
  lemma ModUnique(x: int, d: int, q: int, y: int)
    requires d > 0 && x == q * d + y && 0 <= y < d
    ensures x % d == y
  {
    var r := x % d;
    var p := x / d;
    assert x == p * d + r;
    if p > q {
      assert (p - q) * d == y - r;
      MulAtLeast(p - q, d);
    } else if p < q {
      assert (q - p) * d == r - y;
      MulAtLeast(q - p, d);
    }
  }

  /** Masking with 2^k - 1 keeps the k low bits: `x & ((1 << k) - 1) == x % 2^k`. */
  lemma {:induction false} BitAndLowMask(x: nat, k: nat)
    ensures BitAnd(x, Pow2(k) - 1) == x % Pow2(k)
  {
    if k > 0 && x != 0 {
      var p := Pow2(k - 1);
      var m := Pow2(k) - 1;
      assert m == 2 * p - 1;
      assert m / 2 == p - 1 && m % 2 == 1;
      assert BitAnd(x, m) == 2 * BitAnd(x / 2, p - 1) + x % 2;
      BitAndLowMask(x / 2, k - 1);
      ModDouble(x, p);
    }
  }

  /** The remainder by 2p is twice the halved remainder by p plus the low bit. */
  lemma ModDouble(x: nat, p: nat)
    requires p > 0
    ensures x % (2 * p) == 2 * ((x / 2) % p) + x % 2
  {
    var t := (x / 2) % p;
    var s := (x / 2) / p;
    assert x / 2 == s * p + t;
    assert x == 2 * (s * p) + (2 * t + x % 2);
    MulTwice(s, p);
    ModUnique(x, 2 * p, s, 2 * t + x % 2);
  }

  /** `(x % (2^j * 2^k)) % 2^j == x % 2^j`. */
  lemma ModPow2Nested(x: int, j: nat, k: nat)
    requires j <= k
    ensures (x % Pow2(k)) % Pow2(j) == x % Pow2(j)
  {
    Pow2Add(j, k - j);
    var a, b := Pow2(j), Pow2(k - j);
    ModNested(x, a, b);
  }

  lemma ModNested(x: int, a: int, b: int)
    requires a > 0 && b > 0
    ensures (x % (a * b)) % a == x % a
  {
    MulAtLeast(b, a);
    var n := a * b;
    var q := x / n;
    var r := x % n;
    assert x == q * n + r;
    var q2 := r / a;
    var r2 := r % a;
    assert r == q2 * a + r2;
    assert q * n == (q * b) * a;
    assert x == (q * b + q2) * a + r2;
    ModUnique(x, a, q * b + q2, r2);
  }

  function Min(a: int, b: int): int
  {
    if a <= b then a else b
  }

  /**
   * The shard ids a shard mask m > 0 stands for: those that agree with m on every bit
   * below m's leading one bit.
   */
  predicate MaskCovers(m: nat, shard: nat)
    requires m > 0
  {
    shard % Pow2(BitLength(m) - 1) == m % Pow2(BitLength(m) - 1)
  }

  /**
   * `masks_have_overlap(m1, m2)`: both masks must be positive; then they overlap when they
   * agree on the bits below the leading one bit of the shorter mask.
   */
  function MasksHaveOverlap(m1: int, m2: int): (r: Result<bool, Failure>)
    ensures r.Ok? <==> m1 > 0 && m2 > 0
    ensures r.Ok? ==>
      var k := Min(BitLength(m1), BitLength(m2)) - 1;
      r.value == (m1 % Pow2(k) == m2 % Pow2(k))
  {
    var _ :- Check(m1 > 0 && m2 > 0);
    var i1 := BitLength(m1);
    var i2 := BitLength(m2);
    var bitMask := Pow2(Min(i1, i2) - 1) - 1;
    BitAndLowMask(m1, Min(i1, i2) - 1);
    BitAndLowMask(m2, Min(i1, i2) - 1);
    Ok(BitAnd(m1, bitMask) == BitAnd(m2, bitMask))
  }

  /** The two examples of the function's documentation. */
  lemma MasksHaveOverlapExamples()
    ensures MasksHaveOverlap(0x5, 0x3) == Ok(true)
    ensures MasksHaveOverlap(0x5, 0x2) == Ok(false)
  {
    BitLengthUnique(5, 3);
    BitLengthUnique(3, 2);
    BitLengthUnique(2, 2);
  }

  lemma MasksHaveOverlapSymmetric(m1: int, m2: int)
    ensures MasksHaveOverlap(m1, m2) == MasksHaveOverlap(m2, m1)
  {
  }

  lemma MasksHaveOverlapSelf(m: int)
    requires m > 0
    ensures MasksHaveOverlap(m, m) == Ok(true)
  {
  }

  /** Overlapping masks cover a common shard id. */
  lemma OverlapHasCommonShard(m1: nat, m2: nat) returns (shard: nat)
    requires m1 > 0 && m2 > 0 && MasksHaveOverlap(m1, m2) == Ok(true)
    ensures MaskCovers(m1, shard) && MaskCovers(m2, shard)
  {
    var k1, k2 := BitLength(m1) - 1, BitLength(m2) - 1;
    if k1 <= k2 {
      shard := m2 % Pow2(k2);
      ModPow2Nested(m2, k2, k2);
      ModPow2Nested(m2, k1, k2);
    } else {
      shard := m1 % Pow2(k1);
      ModPow2Nested(m1, k1, k1);
      ModPow2Nested(m1, k2, k1);
    }
  }

  /** Masks that cover a common shard id overlap. */
  lemma CommonShardMeansOverlap(m1: nat, m2: nat, shard: nat)
    requires m1 > 0 && m2 > 0 && MaskCovers(m1, shard) && MaskCovers(m2, shard)
    ensures MasksHaveOverlap(m1, m2) == Ok(true)
  {
    var k1, k2 := BitLength(m1) - 1, BitLength(m2) - 1;
    if k1 <= k2 {
      ModPow2Nested(shard, k1, k2);
      ModPow2Nested(m2, k1, k2);
    } else {
      ModPow2Nested(shard, k2, k1);
      ModPow2Nested(m1, k2, k1);
    }
  }

  /** v is 1, 2, 4, 8, ... */
  predicate PowerOfTwo(v: int)
    decreases if v > 0 then v else 0
  {
    v == 1 || (v > 1 && v % 2 == 0 && PowerOfTwo(v / 2))
  }

  lemma {:induction false} Pow2IsPowerOfTwo(k: nat)
    ensures PowerOfTwo(Pow2(k))
  {
    if k > 0 {
      Pow2IsPowerOfTwo(k - 1);
      assert Pow2(k) / 2 == Pow2(k - 1);
    }
  }

  /** `is_p2(v)`: `v & (v - 1) == 0`. */
  function IsP2(v: int): bool
  {
    BitAnd(v, v - 1) == 0
  }

  /** For v > 0, `is_p2` recognises exactly the powers of two. */
  lemma {:induction false} IsP2Correct(v: int)
    requires v > 0
    ensures IsP2(v) <==> PowerOfTwo(v)
  {
    if v > 1 {
      if v % 2 == 0 {
        assert (v - 1) / 2 == v / 2 - 1;
        assert BitAnd(v, v - 1) == 2 * BitAnd(v / 2, v / 2 - 1);
        IsP2Correct(v / 2);
      } else {
        assert (v - 1) / 2 == v / 2;
        BitAndSelf(v / 2);
        assert BitAnd(v, v - 1) == 2 * BitAnd(v / 2, v / 2);
      }
    }
  }

  /** Outside v > 0: `is_p2(0)` holds (0 & -1 == 0), and no negative number passes. */
  lemma IsP2NonPositive(v: int)
    requires v <= 0
    ensures IsP2(v) <==> v == 0
  {
    if v < 0 {
      BitAndNegative(v, v - 1);
    }
  }

  function Abs(v: int): nat
  {
    if v < 0 then -v else v
  }

  /**
   * `p2_roundup(v)`: `2 ** (v - 1).bit_length()`; Python's `bit_length` of a negative
   * number is that of its absolute value.
   */
  function P2Roundup(v: int): nat
  {
    Pow2(BitLength(Abs(v - 1)))
  }

  /** For v >= 1, `p2_roundup(v)` is the least power of two that is at least v. */
  lemma P2RoundupIsLeastPowerOfTwo(v: int, k: nat)
    requires v >= 1
    ensures PowerOfTwo(P2Roundup(v)) && P2Roundup(v) >= v
    ensures Pow2(k) >= v ==> Pow2(k) >= P2Roundup(v)
  {
    var b := BitLength(v - 1);
    Pow2IsPowerOfTwo(b);
    if Pow2(k) >= v && v > 1 && k < b {
      if k < b - 1 {
        Pow2Monotonic(k, b - 1);
      }
      assert false;
    }
    if Pow2(k) >= v && k > b {
      Pow2Monotonic(b, k);
    }
  }

  /** At 0, below the documented domain's powers, `p2_roundup(0)` is 2 and not 1. */
  lemma P2RoundupZero()
    ensures P2Roundup(0) == 2
  {
    assert BitLength(1) == 1;
  }
}
