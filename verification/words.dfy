/** 32-bit words, and the 32-bit operators of JavaScript numbers.

    A JavaScript number is an `int` here: every number of the modelled files is integral, and the
    members that add numbers keep their sums within the range where a double is exact.  The bitwise
    operators first reduce their operands modulo 2^32 and give back a signed 32-bit value. */
module Words {

  const TWO_32: int := 0x1_0000_0000
  const TWO_31: int := 0x8000_0000

  /** The largest magnitude below which every integer is a double (2^53). */
  const EXACT: int := 0x20_0000_0000_0000

  type byte = x: int | 0 <= x < 256
  type word = x: int | 0 <= x < TWO_32
  type int32 = x: int | -TWO_31 <= x < TWO_31

  function Pow2(n: nat): (r: nat)
    ensures r >= 1
  {
    if n == 0 then 1 else 2 * Pow2(n - 1)
  }

  lemma {:induction false} Pow2Sum(m: nat, n: nat)
    ensures Pow2(m + n) == Pow2(m) * Pow2(n)
  {
    if m != 0 {
      Pow2Sum(m - 1, n);
    }
  }

  lemma Pow2Is2To32()
    ensures Pow2(32) == TWO_32
  {
    Pow2Sum(16, 16);
    Pow2Sum(8, 8);
    Pow2Sum(4, 4);
    Pow2Sum(2, 2);
  }

  // ----- bitwise operators, bit by bit

  datatype BitOp = And | Or | Xor {
    function Apply(x: bool, y: bool): bool {
      match this
      case And => x && y
      case Or => x || y
      case Xor => x != y
    }
  }

  /** Combines the low `n` bits of `a` and `b`. */
  function Bits(op: BitOp, a: nat, b: nat, n: nat): (r: nat)
    ensures r < Pow2(n)
  {
    if n == 0 then 0
    else 2 * Bits(op, a / 2, b / 2, n - 1) + (if op.Apply(a % 2 == 1, b % 2 == 1) then 1 else 0)
  }

  function Word2(op: BitOp, a: word, b: word): word {
    Pow2Is2To32();
    Bits(op, a, b, 32)
  }

  /** Joining a multiple of 2^k with a number below 2^k is addition. */
  lemma {:induction false} DisjointOr(hi: nat, lo: nat, k: nat, n: nat)
    requires k <= n && lo < Pow2(k) && hi < Pow2(n - k)
    ensures Bits(Or, hi * Pow2(k), lo, n) == hi * Pow2(k) + lo
  {
    if k == 0 {
      assert hi * Pow2(k) == hi;
      OrZero(hi, n);
    } else {
      assert hi * Pow2(k) == 2 * (hi * Pow2(k - 1));
      DisjointOr(hi, lo / 2, k - 1, n - 1);
    }
  }

  lemma {:induction false} OrZero(hi: nat, n: nat)
    requires hi < Pow2(n)
    ensures Bits(Or, hi, 0, n) == hi
  {
    if n != 0 {
      OrZero(hi / 2, n - 1);
    }
  }

  // ----- conversions and operators of JavaScript

  /** The 32-bit pattern of a number. */
  function ToUint32(x: int): word {
    x % TWO_32
  }

  function ToInt32(x: int): int32 {
    var u := ToUint32(x);
    if u < TWO_31 then u else u - TWO_32
  }

  lemma PatternOfInt32(x: int)
    ensures ToUint32(ToInt32(x)) == ToUint32(x)
  {
  }

  function JsBits(op: BitOp, x: int, y: int): int32 {
    ToInt32(Word2(op, ToUint32(x), ToUint32(y)))
  }

  lemma BitsPattern(op: BitOp, x: int, y: int)
    ensures ToUint32(JsBits(op, x, y)) == Word2(op, ToUint32(x), ToUint32(y))
  {
  }

  function JsNot(x: int): int32 {
    -1 - ToInt32(x)
  }

  function JsShiftLeft(x: int, n: nat): int32 {
    ToInt32(ToUint32(x) * Pow2(n))
  }

  /** The unsigned shift, `>>>`. */
  function JsShiftRightUnsigned(x: int, n: nat): (r: word) {
    hide Pow2;
    Quotient(ToUint32(x), Pow2(n));
    ToUint32(x) / Pow2(n)
  }

  /** The signed shift, `>>`, which rounds towards minus infinity. */
  function JsShiftRight(x: int, n: nat): int {
    ToInt32(x) / Pow2(n)
  }

  lemma Quotient(x: nat, p: nat)
    requires p >= 1
    ensures x / p <= x
  {
    DivMod(x, p);
    MulLe(1, p, x / p);
  }

  lemma MulLe(a: int, b: int, c: nat)
    requires a <= b
    ensures a * c <= b * c
  {
    assert (b - a) * c >= 0;
  }

  lemma DivMod(x: nat, p: nat)
    requires p >= 1
    ensures x == (x / p) * p + x % p && 0 <= x % p < p
  {
  }

  lemma DivLess(x: nat, p: nat, c: nat)
    requires x < p * c
    ensures p >= 1 && x / p < c
  {
    DivMod(x, p);
    if x / p >= c {
      MulLe(c, x / p, p);
    }
  }

  lemma RotationInRange(x: nat, p: nat, c: nat, t: nat)
    requires p * c == t && x < t
    ensures p >= 1 && x / p < c && 0 <= (x % p) * c <= t - c
  {
    DivLess(x, p, c);
    MulLe(0, x % p, c);
    MulLe(x % p, p - 1, c);
    calc {
      (p - 1) * c;
      p * c - c;
      t - c;
    }
  }

  /** A sum of two numbers, which is exact because it stays below 2^53. */
  function Plus(x: int, y: int): (r: int)
    requires -EXACT <= x + y <= EXACT
  {
    x + y
  }
}
