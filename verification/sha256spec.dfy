/** SHA-256 as FIPS 180-4 defines it, on words below 2^32 and with every sum taken modulo 2^32. */
module Sha256Spec {
  import opened Words

  // ----- section 4.1.2: functions

  function Shr(x: word, n: nat): word {
    hide Pow2;
    Quotient(x, Pow2(n));
    x / Pow2(n)
  }

  /** The low `n` bits of `x`, moved to the top. */
  function LowToTop(x: word, n: nat): word
    requires n <= 32
  {
    HalvesInRange(x, n);
    (x % Pow2(n)) * Pow2(32 - n)
  }

  /** Circular right shift. */
  function Rotr(x: word, n: nat): word
    requires n <= 32
  {
    HalvesInRange(x, n);
    Shr(x, n) + LowToTop(x, n)
  }

  lemma HalvesInRange(x: word, n: nat)
    requires n <= 32
    ensures x / Pow2(n) < Pow2(32 - n)
    ensures 0 <= (x % Pow2(n)) * Pow2(32 - n) <= TWO_32 - Pow2(32 - n)
  {
    hide Pow2;
    Pow2Sum(n, 32 - n);
    Pow2Is2To32();
    RotationInRange(x, Pow2(n), Pow2(32 - n), TWO_32);
  }

  function And2(x: word, y: word): word { Word2(And, x, y) }
  function Xor2(x: word, y: word): word { Word2(Xor, x, y) }
  function Not(x: word): word { TWO_32 - 1 - x }

  function Ch(x: word, y: word, z: word): word { Xor2(And2(x, y), And2(Not(x), z)) }
  function Maj(x: word, y: word, z: word): word { Xor2(Xor2(And2(x, y), And2(x, z)), And2(y, z)) }
  function BigSigma0(x: word): word { Xor2(Xor2(Rotr(x, 2), Rotr(x, 13)), Rotr(x, 22)) }
  function BigSigma1(x: word): word { Xor2(Xor2(Rotr(x, 6), Rotr(x, 11)), Rotr(x, 25)) }
  function SmallSigma0(x: word): word { Xor2(Xor2(Rotr(x, 7), Rotr(x, 18)), Shr(x, 3)) }
  function SmallSigma1(x: word): word { Xor2(Xor2(Rotr(x, 17), Rotr(x, 19)), Shr(x, 10)) }

  // ----- sections 4.2.2 and 5.3.3: constants

  /** Eight of the 64 round constants. */
  function KRow(i: nat): (r: seq<word>)
    ensures |r| == 8
  {
    match i
    case 0 => [0x428a2f98, 0x71374491, 0xb5c0fbcf, 0xe9b5dba5, 0x3956c25b, 0x59f111f1, 0x923f82a4, 0xab1c5ed5]
    case 1 => [0xd807aa98, 0x12835b01, 0x243185be, 0x550c7dc3, 0x72be5d74, 0x80deb1fe, 0x9bdc06a7, 0xc19bf174]
    case 2 => [0xe49b69c1, 0xefbe4786, 0x0fc19dc6, 0x240ca1cc, 0x2de92c6f, 0x4a7484aa, 0x5cb0a9dc, 0x76f988da]
    case 3 => [0x983e5152, 0xa831c66d, 0xb00327c8, 0xbf597fc7, 0xc6e00bf3, 0xd5a79147, 0x06ca6351, 0x14292967]
    case 4 => [0x27b70a85, 0x2e1b2138, 0x4d2c6dfc, 0x53380d13, 0x650a7354, 0x766a0abb, 0x81c2c92e, 0x92722c85]
    case 5 => [0xa2bfe8a1, 0xa81a664b, 0xc24b8b70, 0xc76c51a3, 0xd192e819, 0xd6990624, 0xf40e3585, 0x106aa070]
    case 6 => [0x19a4c116, 0x1e376c08, 0x2748774c, 0x34b0bcb5, 0x391c0cb3, 0x4ed8aa4a, 0x5b9cca4f, 0x682e6ff3]
    case _ => [0x748f82ee, 0x78a5636f, 0x84c87814, 0x8cc70208, 0x90befffa, 0xa4506ceb, 0xbef9a3f7, 0xc67178f2]
  }

  function K(t: nat): word
    requires t < 64
  {
    KRow(t / 8)[t % 8]
  }

  function H0(): (r: seq<word>)
    ensures |r| == 8
  {
    [0x6a09e667, 0xbb67ae85, 0x3c6ef372, 0xa54ff53a, 0x510e527f, 0x9b05688c, 0x1f83d9ab, 0x5be0cd19]
  }

  // ----- section 6.2.2: hash computation

  /** The eight working variables a to h. */
  datatype Vars = Vars(a: word, b: word, c: word, d: word, e: word, f: word, g: word, h: word)

  function Sum(x: word, y: word): word { ToUint32(x + y) }

  /** A big-endian word of four bytes. */
  function WordAt(block: seq<byte>, i: nat): word
    requires i + 4 <= |block|
  {
    (block[i] as int) * 0x100_0000 + (block[i + 1] as int) * 0x1_0000 + (block[i + 2] as int) * 0x100
    + block[i + 3] as int
  }

  /** The message schedule. */
  function W(block: seq<byte>, t: nat): word
    requires |block| == 64
  {
    if t < 16 then WordAt(block, 4 * t)
    else Sum(Sum(SmallSigma1(W(block, t - 2)), W(block, t - 7)),
             Sum(SmallSigma0(W(block, t - 15)), W(block, t - 16)))
  }

  function Round(v: Vars, k: word, w: word): Vars {
    var t1 := Sum(Sum(Sum(Sum(v.h, BigSigma1(v.e)), Ch(v.e, v.f, v.g)), k), w);
    var t2 := Sum(BigSigma0(v.a), Maj(v.a, v.b, v.c));
    Vars(Sum(t1, t2), v.a, v.b, v.c, Sum(v.d, t1), v.e, v.f, v.g)
  }

  /** The working variables after the first `t` rounds. */
  function Rounds(v: Vars, block: seq<byte>, t: nat): Vars
    requires |block| == 64 && t <= 64
  {
    if t == 0 then v else Round(Rounds(v, block, t - 1), K(t - 1), W(block, t - 1))
  }

  function VarsOf(h: seq<word>): Vars
    requires |h| == 8
  {
    Vars(h[0], h[1], h[2], h[3], h[4], h[5], h[6], h[7])
  }

  function CompressBlock(h: seq<word>, block: seq<byte>): (r: seq<word>)
    requires |h| == 8 && |block| == 64
    ensures |r| == 8
  {
    var v := Rounds(VarsOf(h), block, 64);
    [Sum(h[0], v.a), Sum(h[1], v.b), Sum(h[2], v.c), Sum(h[3], v.d),
     Sum(h[4], v.e), Sum(h[5], v.f), Sum(h[6], v.g), Sum(h[7], v.h)]
  }

  /** The hash value after the first `n` blocks of `m`. */
  function HashBlocks(m: seq<byte>, n: nat): (r: seq<word>)
    requires 64 * n <= |m|
    ensures |r| == 8
  {
    if n == 0 then H0() else CompressBlock(HashBlocks(m, n - 1), m[64 * (n - 1)..64 * n])
  }

  lemma {:induction false} HashPrefix(m: seq<byte>, x: seq<byte>, n: nat)
    requires 64 * n <= |m|
    ensures HashBlocks(m + x, n) == HashBlocks(m, n)
  {
    hide CompressBlock, H0;
    if n > 0 {
      HashPrefix(m, x, n - 1);
      assert (m + x)[64 * (n - 1)..64 * n] == m[64 * (n - 1)..64 * n];
    }
  }

  // ----- section 5.1.1: padding

  function Zeros(n: nat): (r: seq<byte>)
    ensures |r| == n
  {
    seq(n, _ => 0)
  }

  /** The `n` low bytes of `x`, most significant first. */
  function BigEndian(x: nat, n: nat): (r: seq<byte>)
    ensures |r| == n
  {
    if n == 0 then [] else BigEndian(x / 256, n - 1) + [x % 256]
  }

  /** The number of zero bytes after the 0x80 byte: the smallest one that fills the last block. */
  function ZeroCount(n: nat): (k: nat)
    ensures (n + 1 + k + 8) % 64 == 0 && k < 64
  {
    (119 - n % 64) % 64
  }

  function Pad(m: seq<byte>): (r: seq<byte>)
    ensures |r| % 64 == 0
  {
    m + [0x80] + Zeros(ZeroCount(|m|)) + BigEndian(8 * |m|, 8)
  }

  function WordsToBytes(h: seq<word>): seq<byte> {
    if h == [] then [] else WordsToBytes(h[..|h| - 1]) + BigEndian(h[|h| - 1], 4)
  }

  /** The message digest of `m`. */
  function Sha256(m: seq<byte>): seq<byte> {
    var p := Pad(m);
    WordsToBytes(HashBlocks(p, |p| / 64))
  }
}
