/**
 * The 16-bit machine words of the MSP430 target: `unsigned int`, `int` and
 * `short` are 16 bits wide there, so conversions and bitwise operations are
 * written out on mathematical integers.
 */
module Words {

  /** An `unsigned int` (or `u_int`) of the target. */
  type u16 = x: int | 0 <= x < 0x1_0000
  /** A `short` or `signed int` of the target. */
  type i16 = x: int | -0x8000 <= x < 0x8000

  /** Reduction modulo 2^16: what storing an integer into an unsigned 16-bit location keeps. */
  function Wrap16(x: int): u16
  {
    x % 0x1_0000
  }

  /** Reading an unsigned 16-bit pattern as a two's complement `short`. */
  function ToShort(c: u16): i16
  {
    if c < 0x8000 then c else c - 0x1_0000
  }

  /** Negation of a 16-bit signed value (two's complement, so -32768 stays -32768). */
  function Negate16(x: i16): i16
  {
    if x == -0x8000 then x else -x
  }

  function Pow2(n: nat): (r: nat)
    ensures r >= 1
  {
    if n == 0 then 1 else 2 * Pow2(n - 1)
  }

  lemma Pow2Of16()
    ensures Pow2(16) == 0x1_0000
  {
    assert Pow2(2) == 4;
    assert Pow2(4) == 16;
    assert Pow2(6) == 64;
    assert Pow2(8) == 256;
    assert Pow2(10) == 1024;
    assert Pow2(12) == 4096;
    assert Pow2(14) == 0x4000;
  }

  /** Bit `k` (0 or 1) of `x`. */
  function Bit(x: nat, k: nat): nat
  {
    (x / Pow2(k)) % 2
  }

  /** Bitwise exclusive or of the low `n` bits of `a` and `b`, least significant bit first. */
  function XorBits(a: nat, b: nat, n: nat): (r: nat)
    ensures r < Pow2(n)
  {
    if n == 0 then 0 else (a % 2 + b % 2) % 2 + 2 * XorBits(a / 2, b / 2, n - 1)
  }

  /** The C operator `^` on two 16-bit unsigned values. */
  function Xor16(a: u16, b: u16): u16
  {
    Pow2Of16();
    XorBits(a, b, 16)
  }

  /** A value XORed with itself is zero. */
  lemma {:induction false} XorSelf(a: nat, n: nat)
    ensures XorBits(a, a, n) == 0
  {
    if n > 0 {
      XorSelf(a / 2, n - 1);
    }
  }
}
