/** The streaming hasher: chaining values are sums of signed words that are never reduced. */
module Sha256Hasher {
  import opened Words
  import opened Sha256Spec

  /** The most blocks after which every sum of `Compress` is still an exact double. */
  const MAX_BLOCKS: nat := 0x40_0000 - 6

  /** 64 * MAX_BLOCKS: a little less than 2^28. */
  const MAX_BYTES: nat := 0xFFF_FE80

  const TWO_29: nat := 0x2000_0000

  // ----- the operators of the inner loop, and the words they stand for

  function JsRotr(w: int, r: nat): int32
    requires 1 <= r <= 31
  {
    JsBits(Or, JsShiftLeft(w, 32 - r), JsShiftRightUnsigned(w, r))
  }

  /** Shifting left drops the high bits, so the two halves of a rotation do not overlap. */
  lemma ShiftedLow(u: word, p: nat, c: nat)
    requires p * c == TWO_32
    ensures p >= 1 && ToUint32(u * c) == (u % p) * c
  {
    DivMod(u, p);
    var q, m := u / p, u % p;
    RotationInRange(u, p, c, TWO_32);
    calc {
      u * c;
      (q * p + m) * c;
      q * (p * c) + m * c;
      q * TWO_32 + m * c;
    }
    MulLe(1, p, c);
    assert 0 <= m * c < TWO_32;
  }

  lemma ShiftPatterns(w: int, r: nat)
    requires r <= 32
    ensures ToUint32(JsShiftLeft(w, 32 - r)) == LowToTop(ToUint32(w), r)
    ensures JsShiftRightUnsigned(w, r) == Shr(ToUint32(w), r)
  {
    hide Pow2;
    Pow2Sum(r, 32 - r);
    Pow2Is2To32();
    ShiftedLow(ToUint32(w), Pow2(r), Pow2(32 - r));
    PatternOfInt32(ToUint32(w) * Pow2(32 - r));
  }

  lemma OrOfHalves(u: word, r: nat)
    requires r <= 32
    ensures Word2(Or, LowToTop(u, r), Shr(u, r)) == Rotr(u, r)
  {
    hide Bits, Pow2;
    HalvesInRange(u, r);
    DisjointOr(u % Pow2(r), u / Pow2(r), 32 - r, 32);
  }

  lemma RotrPattern(w: int, r: nat)
    requires 1 <= r <= 31
    ensures ToUint32(JsRotr(w, r)) == Rotr(ToUint32(w), r)
  {
    hide Word2, LowToTop, Shr, Rotr, JsShiftLeft, JsShiftRightUnsigned;
    ShiftPatterns(w, r);
    OrOfHalves(ToUint32(w), r);
    BitsPattern(Or, JsShiftLeft(w, 32 - r), JsShiftRightUnsigned(w, r));
  }

  function JsSmallSigma0(w: int): int32 { JsBits(Xor, JsBits(Xor, JsRotr(w, 7), JsRotr(w, 18)), JsShiftRightUnsigned(w, 3)) }
  function JsSmallSigma1(w: int): int32 { JsBits(Xor, JsBits(Xor, JsRotr(w, 17), JsRotr(w, 19)), JsShiftRightUnsigned(w, 10)) }
  function JsBigSigma0(w: int): int32 { JsBits(Xor, JsBits(Xor, JsRotr(w, 2), JsRotr(w, 13)), JsRotr(w, 22)) }
  function JsBigSigma1(w: int): int32 { JsBits(Xor, JsBits(Xor, JsRotr(w, 6), JsRotr(w, 11)), JsRotr(w, 25)) }
  function JsMaj(a: int, b: int, c: int): int32 { JsBits(Xor, JsBits(Xor, JsBits(And, a, b), JsBits(And, a, c)), JsBits(And, b, c)) }
  function JsCh(e: int, f: int, g: int): int32 { JsBits(Xor, JsBits(And, e, f), JsBits(And, JsNot(e), g)) }

  lemma Xor3Pattern(x: int, y: int, z: int)
    ensures ToUint32(JsBits(Xor, JsBits(Xor, x, y), z)) == Xor2(Xor2(ToUint32(x), ToUint32(y)), ToUint32(z))
  {
    BitsPattern(Xor, x, y);
    BitsPattern(Xor, JsBits(Xor, x, y), z);
  }

  lemma SmallSigmaPatterns(w: int)
    ensures ToUint32(JsSmallSigma0(w)) == SmallSigma0(ToUint32(w))
    ensures ToUint32(JsSmallSigma1(w)) == SmallSigma1(ToUint32(w))
  {
    hide JsRotr, Rotr, JsBits, Word2;
    RotrPattern(w, 7);
    RotrPattern(w, 18);
    Xor3Pattern(JsRotr(w, 7), JsRotr(w, 18), JsShiftRightUnsigned(w, 3));
    RotrPattern(w, 17);
    RotrPattern(w, 19);
    Xor3Pattern(JsRotr(w, 17), JsRotr(w, 19), JsShiftRightUnsigned(w, 10));
  }

  lemma BigSigmaPatterns(w: int)
    ensures ToUint32(JsBigSigma0(w)) == BigSigma0(ToUint32(w))
    ensures ToUint32(JsBigSigma1(w)) == BigSigma1(ToUint32(w))
  {
    hide JsRotr, Rotr, JsBits, Word2;
    RotrPattern(w, 2);
    RotrPattern(w, 13);
    RotrPattern(w, 22);
    Xor3Pattern(JsRotr(w, 2), JsRotr(w, 13), JsRotr(w, 22));
    RotrPattern(w, 6);
    RotrPattern(w, 11);
    RotrPattern(w, 25);
    Xor3Pattern(JsRotr(w, 6), JsRotr(w, 11), JsRotr(w, 25));
  }

  lemma ChoicePatterns(x: int, y: int, z: int)
    ensures ToUint32(JsCh(x, y, z)) == Ch(ToUint32(x), ToUint32(y), ToUint32(z))
    ensures ToUint32(JsMaj(x, y, z)) == Maj(ToUint32(x), ToUint32(y), ToUint32(z))
  {
    hide JsBits, Word2;
    assert ToUint32(JsNot(x)) == Not(ToUint32(x));
    BitsPattern(And, x, y);
    BitsPattern(And, x, z);
    BitsPattern(And, y, z);
    BitsPattern(And, JsNot(x), z);
    BitsPattern(Xor, JsBits(And, x, y), JsBits(And, JsNot(x), z));
    Xor3Pattern(JsBits(And, x, y), JsBits(And, x, z), JsBits(And, y, z));
  }

  // ----- chaining values

  function Patterns(xs: seq<int>): (r: seq<word>)
    ensures |r| == |xs|
  {
    seq(|xs|, i requires 0 <= i < |xs| => ToUint32(xs[i]))
  }

  /** After `n` blocks a chaining value is an initial value plus `n` signed words. */
  ghost predicate InBound(x: int, n: nat) {
    -(n + 2) * TWO_31 <= x <= (n + 2) * TWO_31
  }

  /** The variables A to H of the main loop, as numbers. */
  datatype Nums = Nums(a: int, b: int, c: int, d: int, e: int, f: int, g: int, h: int) {
    function Patterns(): Vars {
      Vars(ToUint32(a), ToUint32(b), ToUint32(c), ToUint32(d), ToUint32(e), ToUint32(f), ToUint32(g), ToUint32(h))
    }

    /** After `i` rounds, four of them or more, every variable is a signed word. */
    ghost predicate Signed(i: nat) {
      && (i >= 1 ==> ToInt32(a) == a && ToInt32(e) == e)
      && (i >= 2 ==> ToInt32(b) == b && ToInt32(f) == f)
      && (i >= 3 ==> ToInt32(c) == c && ToInt32(g) == g)
      && (i >= 4 ==> ToInt32(d) == d && ToInt32(h) == h)
    }

    ghost predicate Bounded(n: nat) {
      && InBound(a, n) && InBound(b, n) && InBound(c, n)
      && InBound(d, n) && InBound(e, n) && InBound(f, n)
      && InBound(g, n) && InBound(h, n)
    }
  }

  /** One pass of the main loop: every sum is exact, and only the two new variables are reduced. */
  function JsRound(v: Nums, k: word, w: int32, ghost n: nat): (r: Nums)
    requires v.Bounded(n) && n < MAX_BLOCKS
    ensures r.Bounded(n)
  {
    hide JsBits, JsRotr;
    var t2 := ToInt32(Plus(JsBigSigma0(v.a), JsMaj(v.a, v.b, v.c)));
    var t1 := ToInt32(Plus(Plus(Plus(Plus(v.h, JsBigSigma1(v.e)), JsCh(v.e, v.f, v.g)), k), w));
    Nums(ToInt32(Plus(t1, t2)), v.a, v.b, v.c, ToInt32(Plus(v.d, t1)), v.e, v.f, v.g)
  }

  lemma SumPattern(x: int, y: int)
    ensures ToUint32(x + y) == Sum(ToUint32(x), ToUint32(y))
    ensures ToUint32(ToInt32(x + y)) == Sum(ToUint32(x), ToUint32(y))
  {
  }

  lemma WordPattern(k: word)
    ensures ToUint32(k) == k
  {
  }

  lemma RoundPatterns(v: Nums, k: word, w: int32, n: nat)
    requires v.Bounded(n) && n < MAX_BLOCKS
    ensures JsRound(v, k, w, n).Patterns() == Round(v.Patterns(), k, ToUint32(w))
  {
    hide JsBigSigma0, JsBigSigma1, JsCh, JsMaj, BigSigma0, BigSigma1, Ch, Maj, ToUint32, ToInt32, Sum;
    var s0, s1, ch, maj := JsBigSigma0(v.a), JsBigSigma1(v.e), JsCh(v.e, v.f, v.g), JsMaj(v.a, v.b, v.c);
    BigSigmaPatterns(v.a);
    BigSigmaPatterns(v.e);
    ChoicePatterns(v.e, v.f, v.g);
    ChoicePatterns(v.a, v.b, v.c);
    WordPattern(k);
    SumPattern(s0, maj);
    SumPattern(v.h, s1);
    SumPattern(v.h + s1, ch);
    SumPattern(v.h + s1 + ch, k);
    SumPattern(v.h + s1 + ch + k, w);
    var sum: int := s0 as int + maj;
    var t2, t1 := ToInt32(sum), ToInt32(v.h + s1 + ch + k + w);
    SumPattern(t1, t2);
    SumPattern(v.d, t1);
  }

  lemma SignedRound(v: Nums, k: word, w: int32, n: nat, i: nat)
    requires v.Bounded(n) && n < MAX_BLOCKS && v.Signed(i)
    ensures JsRound(v, k, w, n).Signed(i + 1)
  {
    hide JsBigSigma0, JsBigSigma1, JsCh, JsMaj;
  }

  /** Four bytes joined with `<<` and `|`. */
  function JsWordAt(b0: byte, b1: byte, b2: byte, b3: byte): int32 {
    JsBits(Or, JsBits(Or, JsBits(Or, JsShiftLeft(b0, 24), JsShiftLeft(b1, 16)), JsShiftLeft(b2, 8)), b3)
  }

  /** One step of the message expansion. */
  function JsExpand(w16: int32, w15: int32, w7: int32, w2: int32): int32 {
    hide JsBits, JsRotr;
    ToInt32(Plus(Plus(Plus(w16, JsSmallSigma0(w15)), w7), JsSmallSigma1(w2)))
  }

  lemma ExpandPattern(w16: int32, w15: int32, w7: int32, w2: int32)
    ensures ToUint32(JsExpand(w16, w15, w7, w2))
         == Sum(Sum(SmallSigma1(ToUint32(w2)), ToUint32(w7)), Sum(SmallSigma0(ToUint32(w15)), ToUint32(w16)))
  {
    hide JsSmallSigma0, JsSmallSigma1, SmallSigma0, SmallSigma1, ToUint32, ToInt32, Sum;
    var s0, s1 := JsSmallSigma0(w15), JsSmallSigma1(w2);
    SmallSigmaPatterns(w15);
    SmallSigmaPatterns(w2);
    SumPattern(s1, w7);
    SumPattern(s0, w16);
    SumPattern(s1 + w7, s0 + w16);
    assert (s1 + w7) + (s0 + w16) == w16 + s0 + w7 + s1;
  }

  lemma WordAtPattern(b0: byte, b1: byte, b2: byte, b3: byte)
    ensures ToUint32(JsWordAt(b0, b1, b2, b3)) == WordAt([b0, b1, b2, b3], 0)
  {
    hide JsShiftLeft, JsBits, Word2, ToUint32, Pow2;
    Pow2Small();
    var s24, s16, s8 := JsShiftLeft(b0, 24), JsShiftLeft(b1, 16), JsShiftLeft(b2, 8);
    ShiftedByte(b0, 24, 0x100_0000);
    ShiftedByte(b1, 16, 0x1_0000);
    ShiftedByte(b2, 8, 0x100);
    BitsPattern(Or, s24, s16);
    OrAdds(b0, 0x1_0000 * b1 as int, 24, 0x100_0000);
    BitsPattern(Or, JsBits(Or, s24, s16), s8);
    OrAdds(0x100 * (b0 as int) + b1, 0x100 * b2 as int, 16, 0x1_0000);
    BitsPattern(Or, JsBits(Or, JsBits(Or, s24, s16), s8), b3);
    WordPattern(b3);
    OrAdds(0x1_0000 * (b0 as int) + 0x100 * (b1 as int) + b2, b3, 8, 0x100);
  }

  lemma Pow2Small()
    ensures Pow2(8) == 0x100 && Pow2(16) == 0x1_0000 && Pow2(24) == 0x100_0000
  {
    Pow2Sum(4, 4);
    Pow2Sum(8, 8);
    Pow2Sum(8, 16);
  }

  lemma ShiftedByte(b: byte, n: nat, p: int)
    requires p == Pow2(n) && p <= 0x100_0000
    ensures ToUint32(JsShiftLeft(b, n)) == b * p
  {
    hide Pow2;
    WordPattern(b);
    MulLe(b, 255, p);
    MulLe(0, b, p);
    PatternOfInt32(b * p);
    WordPattern(b * p);
  }

  lemma OrAdds(hi: nat, lo: nat, k: nat, p: int)
    requires k <= 32 && p == Pow2(k)
    requires lo < p && hi < Pow2(32 - k) && hi * p < TWO_32 && lo < TWO_32
    ensures Word2(Or, hi * p, lo) == hi * p + lo
  {
    hide Bits, Pow2;
    DisjointOr(hi, lo, k, 32);
  }

  lemma FirstWords(block: seq<byte>, t: nat)
    requires |block| == 64 && t < 16
    ensures ToUint32(JsWordAt(block[4 * t], block[4 * t + 1], block[4 * t + 2], block[4 * t + 3])) == W(block, t)
  {
    hide JsWordAt, ToUint32;
    WordAtPattern(block[4 * t], block[4 * t + 1], block[4 * t + 2], block[4 * t + 3]);
  }

  // ----- the hasher

  function ChainNums(chain: seq<int>): Nums
    requires |chain| == 8
  {
    Nums(chain[0], chain[1], chain[2], chain[3], chain[4], chain[5], chain[6], chain[7])
  }

  function InitialChain(): (r: seq<int>)
    ensures |r| == 8 && Patterns(r) == H0() && ChainNums(r).Bounded(0)
  {
    H0()
  }

  /** The eight additions that end `_compress`. */
  function AddChain(chain: seq<int>, v: Nums, ghost n: nat): (r: seq<int>)
    requires |chain| == 8 && ChainNums(chain).Bounded(n) && n < MAX_BLOCKS
    requires v.Signed(4)
    ensures |r| == 8 && ChainNums(r).Bounded(n + 1)
  {
    [Plus(chain[0], v.a), Plus(chain[1], v.b), Plus(chain[2], v.c), Plus(chain[3], v.d),
     Plus(chain[4], v.e), Plus(chain[5], v.f), Plus(chain[6], v.g), Plus(chain[7], v.h)]
  }

  lemma AddChainPatterns(chain: seq<int>, v: Nums, n: nat)
    requires |chain| == 8 && ChainNums(chain).Bounded(n) && n < MAX_BLOCKS
    requires v.Signed(4)
    ensures var h, p := Patterns(chain), v.Patterns();
            Patterns(AddChain(chain, v, n)) == [Sum(h[0], p.a), Sum(h[1], p.b), Sum(h[2], p.c), Sum(h[3], p.d),
                                                Sum(h[4], p.e), Sum(h[5], p.f), Sum(h[6], p.g), Sum(h[7], p.h)]
  {
    hide ToUint32, Sum;
    SumPattern(chain[0], v.a);
    SumPattern(chain[1], v.b);
    SumPattern(chain[2], v.c);
    SumPattern(chain[3], v.d);
    SumPattern(chain[4], v.e);
    SumPattern(chain[5], v.f);
    SumPattern(chain[6], v.g);
    SumPattern(chain[7], v.h);
  }

  function Concat(xs: seq<seq<byte>>): seq<byte> {
    if xs == [] then [] else Concat(xs[..|xs| - 1]) + xs[|xs| - 1]
  }

  lemma {:induction false} ConcatStep(xs: seq<seq<byte>>, i: nat)
    requires i < |xs|
    ensures Concat(xs[..i + 1]) == Concat(xs[..i]) + xs[i]
    ensures |Concat(xs[..i + 1])| <= |Concat(xs)|
    decreases |xs|
  {
    assert xs[..i + 1][..i] == xs[..i];
    if i + 1 < |xs| {
      var ys := xs[..|xs| - 1];
      ConcatStep(ys, i);
      assert ys[..i + 1] == xs[..i + 1];
    } else {
      assert xs[..i + 1] == xs;
    }
  }

  /** The length field as `digest` writes it: `>>>` keeps only the low 32 bits of the bit count. */
  function LengthField(bits: nat): seq<byte> {
    BigEndian(ToUint32(bits), 8)
  }

  /** The pad that `digest` feeds is the 0x80 byte and the zeros, and leaves 56 bytes in the buffer. */
  lemma PadAmount(length: nat, blocks: nat, inbuf: nat)
    requires length == 64 * blocks + inbuf && inbuf < 64
    ensures var n := if inbuf < 56 then 56 - inbuf else 64 - (inbuf - 56);
            1 <= n <= 64 && n == 1 + ZeroCount(length)
            && length + n == 64 * (if inbuf < 56 then blocks else blocks + 1) + 56
  {
  }

  lemma {:induction false} BigEndianInjective(x: nat, y: nat, n: nat)
    requires x < Pow2(8 * n) && y < Pow2(8 * n)
    requires BigEndian(x, n) == BigEndian(y, n)
    ensures x == y
  {
    if n > 0 {
      var p, q := BigEndian(x / 256, n - 1), BigEndian(y / 256, n - 1);
      assert p == BigEndian(x, n)[..n - 1] && q == BigEndian(y, n)[..n - 1];
      assert x % 256 == BigEndian(x, n)[n - 1] && y % 256 == BigEndian(y, n)[n - 1];
      Pow2Sum(8 * n - 8, 8);
      Pow2Small();
      BigEndianInjective(x / 256, y / 256, n - 1);
    }
  }

  /** The length field agrees with FIPS 180-4 exactly for messages below 2^29 bytes. */
  lemma LengthFieldExact(length: nat)
    requires 8 * length < Pow2(64)
    ensures LengthField(8 * length) == BigEndian(8 * length, 8) <==> length < TWO_29
  {
    hide BigEndian, Pow2;
    Pow2Sum(32, 32);
    Pow2Is2To32();
    if LengthField(8 * length) == BigEndian(8 * length, 8) {
      BigEndianInjective(ToUint32(8 * length), 8 * length, 8);
    }
  }

  lemma FinalBlock(m: seq<byte>, padded: seq<byte>, blocks: nat, last: seq<byte>)
    requires |m| < TWO_29
    requires padded == m + ([0x80] + Zeros(63))[..1 + ZeroCount(|m|)] && |padded| == 64 * blocks + 56
    requires last == padded[64 * blocks..] + LengthField(8 * |m|)
    ensures Sha256(m) == WordsToBytes(CompressBlock(HashBlocks(padded, blocks), last))
  {
    hide CompressBlock, H0, WordsToBytes, BigEndian, LengthField, Zeros;
    LengthBelow(|m|);
    var length := BigEndian(8 * |m|, 8);
    PaddedMessage(m);
    HashPrefix(padded, length, blocks);
    assert (padded + length)[64 * blocks..64 * (blocks + 1)] == last;
  }

  lemma LengthBelow(length: nat)
    requires length < TWO_29
    ensures LengthField(8 * length) == BigEndian(8 * length, 8)
  {
    hide BigEndian;
  }

  lemma PaddedMessage(m: seq<byte>)
    ensures Pad(m) == m + ([0x80] + Zeros(63))[..1 + ZeroCount(|m|)] + BigEndian(8 * |m|, 8)
  {
    hide BigEndian, Zeros, ZeroCount;
    var z := ZeroCount(|m|);
    ZeroPrefix(z);
    assert m + [0x80] + Zeros(z) == m + ([0x80] + Zeros(z));
  }

  lemma ZeroPrefix(z: nat)
    requires z < 64
    ensures ([0x80] + Zeros(63))[..1 + z] == [0x80] + Zeros(z)
  {
  }

  lemma OutputByte(x: int, k: nat)
    requires k < 4
    ensures JsShiftRight(x, 24 - 8 * k) % 256 == BigEndian(ToUint32(x), 4)[k]
  {
    Pow2Small();
    assert Pow2(0) == 1;
    BigEndian4(ToUint32(x));
    ByteOfSigned(ToUint32(x));
  }

  lemma ByteOfSigned(u: word)
    ensures var x: int := u - TWO_32;
            x / 0x100_0000 % 256 == u / 0x100_0000 % 256 && x / 0x1_0000 % 256 == u / 0x1_0000 % 256
            && x / 0x100 % 256 == u / 0x100 % 256 && x % 256 == u % 256
  {
    var x: int := u - TWO_32;
    assert x / 0x100_0000 == u / 0x100_0000 - 0x100;
    assert x / 0x1_0000 == u / 0x1_0000 - 0x1_0000;
    assert x / 0x100 == u / 0x100 - 0x100_0000;
    SameByte(u / 0x100_0000, 1);
    SameByte(u / 0x1_0000, 0x100);
    SameByte(u / 0x100, 0x1_0000);
    SameByte(u, 0x100_0000);
  }

  lemma SameByte(u: int, k: int)
    ensures (u - 256 * k) % 256 == u % 256
  {
  }

  lemma BigEndian4(u: word)
    ensures BigEndian(u, 4) == [u / 0x100_0000 % 256, u / 0x1_0000 % 256, u / 0x100 % 256, u % 256]
  {
    assert BigEndian(u / 0x100_0000, 1) == [u / 0x100_0000 % 256];
    assert BigEndian(u / 0x1_0000, 2) == BigEndian(u / 0x1_0000 / 256, 1) + [u / 0x1_0000 % 256];
    assert BigEndian(u / 0x100, 3) == BigEndian(u / 0x100 / 256, 2) + [u / 0x100 % 256];
  }

  class SHA256 {
    const buf: array<byte>
    const schedule: array<int32>
    var chain: seq<int>
    var inbuf: nat
    var total: nat
    ghost var fed: seq<byte>    // all bytes since the last reset
    ghost var blocks: nat       // how many blocks of them have been hashed

    ghost predicate Valid()
      reads this, buf, schedule
    {
      Hashing() && total == |fed|
    }

    /** What holds inside `update`, where the total is counted first. */
    ghost predicate Hashing()
      reads `chain, `inbuf, `fed, `blocks, buf
    {
      && buf.Length == 64 && schedule.Length == 64
      && |chain| == 8
      && inbuf < 64 && |fed| == 64 * blocks + inbuf
      && buf[..inbuf] == fed[64 * blocks..]
      && Patterns(chain) == HashBlocks(fed, blocks)
      && ChainNums(chain).Bounded(blocks)
    }

    constructor ()
      ensures Valid() && fed == [] && fresh(buf) && fresh(schedule)
    {
      buf := new byte[64](_ => 0);
      schedule := new int32[64](_ => 0);
      chain := InitialChain();
      inbuf, total, fed, blocks := 0, 0, [], 0;
    }

    method Reset()
      requires buf.Length == 64 && schedule.Length == 64
      modifies this
      ensures Valid() && fed == []
    {
      chain := InitialChain();
      inbuf, total, fed, blocks := 0, 0, [], 0;
    }

    /** The first half of `_compress`: sixteen big-endian words, expanded to sixty-four. */
    method Expand()
      requires buf.Length == 64 && schedule.Length == 64
      modifies schedule
      ensures forall t :: 0 <= t < 64 ==> ToUint32(schedule[t]) == W(buf[..], t)
    {
      hide JsWordAt, JsExpand, ToUint32, WordAt, Sum, SmallSigma0, SmallSigma1;
      ghost var block := buf[..];
      for t := 0 to 16
        invariant forall j :: 0 <= j < t ==> ToUint32(schedule[j]) == W(block, j)
      {
        schedule[t] := JsWordAt(buf[4 * t], buf[4 * t + 1], buf[4 * t + 2], buf[4 * t + 3]);
        FirstWords(block, t);
      }
      for t := 16 to 64
        invariant forall j :: 0 <= j < t ==> ToUint32(schedule[j]) == W(block, j)
      {
        ExpandPattern(schedule[t - 16], schedule[t - 15], schedule[t - 7], schedule[t - 2]);
        schedule[t] := JsExpand(schedule[t - 16], schedule[t - 15], schedule[t - 7], schedule[t - 2]);
      }
    }

    /** `_compress`, when `n` blocks have been hashed before. */
    method Compress(ghost n: nat)
      requires buf.Length == 64 && schedule.Length == 64 && |chain| == 8
      requires ChainNums(chain).Bounded(n) && n < MAX_BLOCKS
      modifies this`chain, schedule
      ensures |chain| == 8 && Patterns(chain) == CompressBlock(Patterns(old(chain)), buf[..])
      ensures ChainNums(chain).Bounded(n + 1)
    {
      hide JsRound, Round, AddChain;
      Expand();
      ghost var block := buf[..];
      var v := ChainNums(chain);
      ghost var v0 := v.Patterns();
      for i := 0 to 64
        invariant v.Bounded(n)
        invariant v.Patterns() == Rounds(v0, block, i)
        modifies {}
        invariant v.Signed(i)
      {
        RoundPatterns(v, K(i), schedule[i], n);
        SignedRound(v, K(i), schedule[i], n, i);
        v := JsRound(v, K(i), schedule[i], n);
      }
      AddChainPatterns(chain, v, n);
      assert v0 == VarsOf(Patterns(chain));
      chain := AddChain(chain, v, n);
    }

    /** The body of the loops of `update` and `updateRange`. */
    method Push(b: byte)
      requires Hashing() && |fed| < MAX_BYTES
      modifies this`chain, this`inbuf, this`fed, this`blocks, buf, schedule
      ensures Hashing() && fed == old(fed) + [b]
    {
      hide CompressBlock, H0;
      HashPrefix(fed, [b], blocks);
      fed := fed + [b];
      buf[inbuf] := b;
      inbuf := inbuf + 1;
      assert buf[..inbuf] == fed[64 * blocks..];
      if inbuf == 64 {
        assert buf[..] == fed[64 * blocks..64 * (blocks + 1)];
        Compress(blocks);
        blocks, inbuf := blocks + 1, 0;
      }
    }

    method Update(bytes: seq<byte>, optLength: nat)
      requires Valid() && optLength <= |bytes|
      requires |fed| + (if optLength == 0 then |bytes| else optLength) <= MAX_BYTES
      modifies this, buf, schedule
      ensures Valid() && fed == old(fed) + bytes[..if optLength == 0 then |bytes| else optLength]
    {
      hide Hashing;
      var length := if optLength == 0 then |bytes| else optLength;
      total := total + length;
      for n := 0 to length
        invariant Hashing() && fed == old(fed) + bytes[..n]
        invariant total == old(total) + length
      {
        Push(bytes[n]);
      }
    }

    method UpdateRange(bytes: seq<byte>, start: nat, end: nat)
      requires Valid() && start <= end <= |bytes|
      requires |fed| + (end - start) <= MAX_BYTES
      modifies this, buf, schedule
      ensures Valid() && fed == old(fed) + bytes[start..end]
    {
      hide Hashing;
      total := total + (end - start);
      for n := start to end
        invariant Hashing() && fed == old(fed) + bytes[start..n]
        invariant total == old(total) + (end - start)
      {
        Push(bytes[n]);
      }
    }

    method Digest(args: seq<seq<byte>>) returns (digest: seq<byte>)
      requires Valid()
      requires |fed| + |Concat(args)| + 128 <= MAX_BYTES
      modifies this, buf, schedule
      ensures digest == Sha256(old(fed) + Concat(args))
    {
      hide Sha256, Hashing;
      for i := 0 to |args|
        invariant Valid() && fed == old(fed) + Concat(args[..i])
      {
        ConcatStep(args, i);
        Update(args[i], 0);
      }
      assert args[..|args|] == args;
      digest := Finish();
    }

    /** The rest of `digest`, after its arguments have been hashed. */
    method Finish() returns (digest: seq<byte>)
      requires Valid() && |fed| + 128 <= MAX_BYTES
      modifies this, buf, schedule
      ensures digest == Sha256(old(fed))
    {
      hide HashBlocks, H0, CompressBlock, Sha256, WordsToBytes, BigEndian, Pad, LengthField;
      ghost var m := fed;
      var totalBits := 8 * total;
      PadAmount(|m|, blocks, inbuf);
      Update([0x80] + Zeros(63), if inbuf < 56 then 56 - inbuf else 64 - (inbuf - 56));
      AppendLength(totalBits);
      FinalBlock(m, fed, blocks, buf[..]);
      Compress(blocks);
      digest := Output();
    }

    /** The last eight bytes of the last block. */
    method AppendLength(bits: nat)
      requires buf.Length == 64
      modifies buf
      ensures buf[..] == old(buf[..56]) + LengthField(bits)
    {
      hide ToUint32;
      var totalBits := bits;
      ghost var head := buf[..56];
      for k := 0 to 8
        invariant buf[..56] == head
        invariant LengthField(bits) == BigEndian(ToUint32(totalBits), 8 - k) + buf[64 - k..]
      {
        var x := ToUint32(totalBits);
        ghost var done := buf[64 - k..];
        buf[63 - k] := x % 256;
        assert buf[63 - k..] == [x % 256] + done;
        totalBits := x / 256;
        WordPattern(totalBits);
      }
      assert buf[..] == head + buf[56..];
    }

    method Output() returns (digest: seq<byte>)
      requires |chain| == 8
      ensures digest == WordsToBytes(Patterns(chain))
    {
      digest := [];
      ghost var p := Patterns(chain);
      for i := 0 to 8
        invariant digest == WordsToBytes(p[..i])
      {
        ghost var start := digest;
        for k := 0 to 4
          invariant digest == start + BigEndian(p[i], 4)[..k]
        {
          OutputByte(chain[i], k);
          digest := digest + [JsShiftRight(chain[i], 24 - 8 * k) % 256];
        }
        assert p[..i + 1][..i] == p[..i];
      }
      assert p[..8] == p;
    }
  }

  /** A call of `update` or of `updateRange`. */
  datatype Part =
    | Whole(bytes: seq<byte>, optLength: nat)
    | Range(bytes: seq<byte>, start: nat, end: nat)
  {
    predicate InBounds() {
      match this
      case Whole(bytes, optLength) => optLength <= |bytes|
      case Range(bytes, start, end) => start <= end <= |bytes|
    }

    function Bytes(): seq<byte>
      requires InBounds()
    {
      match this
      case Whole(bytes, optLength) => bytes[..if optLength == 0 then |bytes| else optLength]
      case Range(bytes, start, end) => bytes[start..end]
    }
  }

  function Fed(parts: seq<Part>): seq<byte>
    requires forall i :: 0 <= i < |parts| ==> parts[i].InBounds()
  {
    if parts == [] then [] else Fed(parts[..|parts| - 1]) + parts[|parts| - 1].Bytes()
  }

  lemma {:induction false} FedStep(parts: seq<Part>, i: nat)
    requires i < |parts| && forall k :: 0 <= k < |parts| ==> parts[k].InBounds()
    ensures Fed(parts[..i + 1]) == Fed(parts[..i]) + parts[i].Bytes()
    ensures |Fed(parts[..i + 1])| <= |Fed(parts)|
    decreases |parts|
  {
    assert parts[..i + 1][..i] == parts[..i];
    if i + 1 < |parts| {
      var ps := parts[..|parts| - 1];
      FedStep(ps, i);
      assert ps[..i + 1] == parts[..i + 1];
    } else {
      assert parts[..i + 1] == parts;
    }
  }

  lemma ConcatNothing()
    ensures Concat([]) == []
  {
  }

  /** A fresh hasher, fed by any calls and then asked for the digest, gives the hash of all the bytes in one piece. */
  method HashOfCalls(parts: seq<Part>) returns (digest: seq<byte>)
    requires forall i :: 0 <= i < |parts| ==> parts[i].InBounds()
    requires |Fed(parts)| + 128 <= MAX_BYTES
    ensures digest == Sha256(Fed(parts))
  {
    hide Sha256, SHA256.Valid, Concat;
    ConcatNothing();
    var hasher := new SHA256();
    for i := 0 to |parts|
      invariant fresh(hasher.buf) && fresh(hasher.schedule)
      invariant hasher.Valid() && hasher.fed == Fed(parts[..i])
    {
      FedStep(parts, i);
      match parts[i]
      case Whole(bytes, optLength) => hasher.Update(bytes, optLength);
      case Range(bytes, start, end) => hasher.UpdateRange(bytes, start, end);
    }
    assert parts[..|parts|] == parts;
    assert Fed(parts) + [] == Fed(parts);
    digest := hasher.Digest([]);
  }

  /** `sha256HashOfString`, on the bytes of the string. */
  method HashOfString(bytes: seq<byte>) returns (digest: seq<byte>)
    requires |bytes| + 128 <= MAX_BYTES
    ensures digest == Sha256(bytes)
  {
    assert [Whole(bytes, 0)][..0] == [];
    assert Fed([Whole(bytes, 0)]) == bytes;
    digest := HashOfCalls([Whole(bytes, 0)]);
  }
}
