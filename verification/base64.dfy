/** The encoder and decoder: a 32-bit accumulator that is shifted until it overflows. */
module Base64 {
  import opened Words
  import opened Base64Spec

  // ----- the operators on the accumulator

  /** `accu <<= n; accu |= v` */
  function Accumulate(accu: int32, n: nat, v: byte): int32 {
    JsBits(Or, JsShiftLeft(accu, n), v)
  }

  /** `(accu >> k) & mask` */
  function Extract(accu: int32, k: nat, mask: byte): int32 {
    JsBits(And, JsShiftRight(accu, k), mask)
  }

  /** What falls off at the top is lost, and the new bits are added below. */
  lemma AccumulatePattern(accu: int32, n: nat, p: nat, v: byte)
    requires n <= 8 && p == Pow2(n) && v < p
    ensures ToUint32(Accumulate(accu, n, v)) == (ToUint32(accu) * p + v) % TWO_32
  {
    hide Pow2, JsBits, Word2, JsShiftLeft, ToUint32;
    var u, c := ToUint32(accu), Pow2(32 - n);
    Pow2Sum(n, 32 - n);
    Pow2Is2To32();
    TopLost(u, p, c, v);
    BitsPattern(Or, JsShiftLeft(accu, n), v);
    ShiftPattern(accu, n);
    ByteJoined(u % c, v, n, p);
  }

  lemma ShiftPattern(x: int, n: nat)
    ensures ToUint32(JsShiftLeft(x, n)) == (ToUint32(x) * Pow2(n)) % TWO_32
  {
    hide Pow2;
    PatternOfInt32(ToUint32(x) * Pow2(n));
  }

  lemma ByteJoined(hi: nat, v: byte, n: nat, p: nat)
    requires n <= 8 && p == Pow2(n) && v < p && hi < Pow2(32 - n) && hi * p < TWO_32
    ensures ToUint32(v) == v && Word2(Or, hi * p, v) == hi * p + v
  {
    hide Pow2, Bits;
    DisjointOr(hi, v, n, 32);
  }

  lemma TopLost(u: word, p: nat, c: nat, v: nat)
    requires p * c == TWO_32 && v < p
    ensures c >= 1 && (u * p) % TWO_32 == u % c * p && (u * p + v) % TWO_32 == u % c * p + v
  {
    RotationInRange(u, c, p, TWO_32);
    DivMod(u, c);
    var q, hi := u / c, u % c;
    calc {
      u * p;
      (q * c + hi) * p;
      q * (p * c) + hi * p;
      q * TWO_32 + hi * p;
    }
    UniqueRemainder(u * p, TWO_32, q, hi * p);
    UniqueRemainder(u * p + v, TWO_32, q, hi * p + v);
  }

  lemma {:induction false} MaskLow(a: nat, m: nat, n: nat)
    requires m <= n
    ensures Bits(And, a, Pow2(m) - 1, n) == a % Pow2(m)
  {
    hide Bits;
    if m == 0 {
      AndZero(a, n);
    } else {
      MaskLow(a / 2, m - 1, n - 1);
      LowBit(a, Pow2(m - 1));
      MaskBit(a, Pow2(m - 1), n);
    }
  }

  lemma MaskBit(a: nat, p: nat, n: nat)
    requires p >= 1 && n > 0
    ensures Bits(And, a, 2 * p - 1, n) == 2 * Bits(And, a / 2, p - 1, n - 1) + a % 2
  {
    assert (2 * p - 1) / 2 == p - 1 && (2 * p - 1) % 2 == 1;
  }

  lemma LowBit(a: nat, p: nat)
    requires p >= 1
    ensures a % (2 * p) == 2 * (a / 2 % p) + a % 2
  {
    DivMod(a / 2, p);
    var q, r := a / 2 / p, a / 2 % p;
    assert a == q * (2 * p) + (2 * r + a % 2) by {
      assert a == 2 * (q * p + r) + a % 2;
      assert 2 * (q * p) == q * (2 * p);
    }
    UniqueRemainder(a, 2 * p, q, 2 * r + a % 2);
  }

  lemma UniqueRemainder(a: int, p: nat, q: int, r: nat)
    requires p >= 1 && a == q * p + r && r < p
    ensures a / p == q && a % p == r
  {
    var d := a / p;
    assert a == d * p + a % p;
    if d < q {
      assert (d + 1) * p == d * p + p;
      MulLe(d + 1, q, p);
    } else if d > q {
      assert (q + 1) * p == q * p + p;
      MulLe(q + 1, d, p);
    }
  }

  lemma {:induction false} AndZero(a: nat, n: nat)
    ensures Bits(And, a, 0, n) == 0
  {
    if n != 0 {
      AndZero(a / 2, n - 1);
    }
  }

  lemma MaskPattern(x: int)
    ensures JsBits(And, x, 63) == x % 64 && JsBits(And, x, 255) == x % 256
  {
    hide Bits, Pow2, ToUint32;
    PowersUsed();
    MaskLow(ToUint32(x), 6, 32);
    MaskLow(ToUint32(x), 8, 32);
    LowBitsOfPattern(x);
    MasksFit();
  }

  lemma MasksFit()
    ensures ToUint32(63) == 63 && ToUint32(255) == 255
    ensures forall v :: 0 <= v < 256 ==> ToInt32(v) == v
  {
  }

  lemma LowBitsOfPattern(x: int)
    ensures ToUint32(x) % 64 == x % 64 && ToUint32(x) % 256 == x % 256
  {
    var q := x / TWO_32;
    assert x == 64 * (0x400_0000 * q) + ToUint32(x);
    assert x == 256 * (0x100_0000 * q) + ToUint32(x);
  }

  lemma PowersUsed()
    ensures Pow2(0) == 1 && Pow2(2) == 4 && Pow2(4) == 16 && Pow2(6) == 64 && Pow2(8) == 256
  {
    Pow2Sum(2, 2);
    Pow2Sum(4, 2);
    Pow2Sum(4, 4);
  }

  /** The sign that the shift drags in lies above the bits that are used. */
  lemma ExtractPattern(accu: int32, k: nat, p: nat)
    requires k <= 6 && k % 2 == 0 && p == Pow2(k)
    ensures Extract(accu, k, 63) == ToUint32(accu) / p % 64 && Extract(accu, k, 255) == ToUint32(accu) / p % 256
  {
    hide JsBits, Pow2;
    PowersUsed();
    MaskPattern(JsShiftRight(accu, k));
    SignDropped(accu, p);
  }

  lemma SignDropped(accu: int32, p: nat)
    requires p == 1 || p == 4 || p == 16 || p == 64
    ensures ToInt32(accu) / p % 256 == ToUint32(accu) / p % 256 && ToInt32(accu) / p % 64 == ToUint32(accu) / p % 64
  {
    var u := ToUint32(accu);
    var t := if p == 1 then TWO_32 else if p == 4 then 0x4000_0000 else if p == 16 then 0x1000_0000 else 0x400_0000;
    if u >= TWO_31 {
      DivMod(u, p);
      assert (u / p - t) * p == u / p * p - TWO_32;
      UniqueRemainder(accu, p, u / p - t, u % p);
      MultipleDropped(u / p, t);
    }
  }

  lemma MultipleDropped(x: nat, t: nat)
    requires t % 256 == 0
    ensures (x - t) % 256 == x % 256 && (x - t) % 64 == x % 64
  {
    var n := t / 256;
    UniqueRemainder(x - t, 256, x / 256 - n, x % 256);
    UniqueRemainder(x - t, 64, x / 64 - 4 * n, x % 64);
  }

  // ----- encoding

  const B64OUT := ["ABCDEFGHIJKLMNOP", "QRSTUVWXYZabcdef", "ghijklmnopqrstuv", "wxyz0123456789-_"]

  function OutChar(v: sextet): (c: char)
    ensures c == Digit(v)
  {
    var row := B64OUT[v / 16];
    assert |row| == 16;
    OutCharIsDigit(v);
    row[v % 16]
  }

  lemma OutCharIsDigit(v: sextet)
    ensures |B64OUT[v / 16]| == 16 && B64OUT[v / 16][v % 16] == Digit(v)
  {
  }

  /** The bytes that `B64_encode` encodes: all of them if the length is absent or zero, and zeros behind the end. */
  function Source(bytes: seq<byte>, optLength: nat): seq<byte> {
    if optLength == 0 then bytes else seq(optLength, i requires 0 <= i => ByteAt(bytes, i))
  }

  /** The low bits of the accumulator that belong to the next character: 0, 2 or 4 of them. */
  ghost predicate Pending(src: seq<byte>, i: nat, u: word) {
    match i % 3
    case 0 => true
    case 1 => u % 4 == ByteAt(src, i - 1) % 4
    case _ => u % 16 == ByteAt(src, i - 1) % 16
  }

  lemma LowBits(u: word, b: byte)
    ensures var w := (u * 256 + b) % TWO_32;
            && w % 4 == b % 4 && w % 16 == b % 16 && w % 64 == b % 64 && w / 4 % 64 == b / 4
            && w / 16 % 64 == u % 4 * 16 + b / 16 && w / 64 % 64 == u % 16 * 4 + b / 64
  {
    TopByteLost(u, b);
    JoinedByte(u % 0x100_0000, b);
  }

  lemma TopByteLost(u: word, b: byte)
    ensures var hi := u % 0x100_0000;
            (u * 256 + b) % TWO_32 == hi * 256 + b && u % 4 == hi % 4 && u % 16 == hi % 16
  {
    var q, hi := u / 0x100_0000, u % 0x100_0000;
    assert u == q * 0x100_0000 + hi;
    UniqueRemainder(u * 256 + b, TWO_32, q, hi * 256 + b);
    UniqueRemainder(u, 4, q * 0x40_0000 + hi / 4, hi % 4);
    UniqueRemainder(u, 16, q * 0x10_0000 + hi / 16, hi % 16);
  }

  lemma JoinedByte(hi: nat, b: byte)
    ensures var w := hi * 256 + b;
            && w % 4 == b % 4 && w % 16 == b % 16 && w % 64 == b % 64 && w / 4 % 64 == b / 4
            && w / 16 % 64 == hi % 4 * 16 + b / 16 && w / 64 % 64 == hi % 16 * 4 + b / 64
  {
    var w := hi * 256 + b;
    UniqueRemainder(w, 4, 64 * hi + b / 4, b % 4);
    UniqueRemainder(w, 16, 16 * hi + b / 16, b % 16);
    UniqueRemainder(w, 64, 4 * hi + b / 64, b % 64);
    UniqueRemainder(64 * hi + b / 4, 64, hi, b / 4);
    UniqueRemainder(16 * hi + b / 16, 64, hi / 4, hi % 4 * 16 + b / 16);
    UniqueRemainder(4 * hi + b / 64, 64, hi / 16, hi % 16 * 4 + b / 64);
  }

  lemma PendingNext(src: seq<byte>, i: nat, u: word)
    requires Pending(src, i, u)
    ensures Pending(src, i + 1, (u * 256 + ByteAt(src, i)) % TWO_32)
  {
    hide ByteAt;
    LowBits(u, ByteAt(src, i));
  }

  /** Character `r` is found in the accumulator after byte `i`, above the `shift - 6` lowest bits. */
  lemma NextChar(src: seq<byte>, i: nat, u: word, r: nat, shift: nat)
    requires Pending(src, i, u)
    requires shift == 8 * (i + 1) - 6 * r && 6 <= shift <= 12
    ensures var w := (u * 256 + ByteAt(src, i)) % TWO_32;
            shift - 6 <= 6 && (shift - 6) % 2 == 0 && w / Pow2(shift - 6) % 64 == SextetOf(InputGroup(src, r / 4), r % 4)
  {
    hide Pow2, SextetOf, ByteAt, InputGroup;
    CharPosition(i, r, shift);
    LowBits(u, ByteAt(src, i));
    PowersUsed();
    SextetsOfGroup(src, i / 3);
    var q := i / 3;
    if i == 3 * q {
      assert r / 4 == q && r % 4 == 0;
    } else if i == 3 * q + 1 {
      assert r / 4 == q && r % 4 == 1;
    } else if shift == 12 {
      assert r / 4 == q && r % 4 == 2;
    } else {
      assert r / 4 == q && r % 4 == 3;
    }
  }

  lemma SextetsOfGroup(src: seq<byte>, q: nat)
    ensures var g, a, b, c := InputGroup(src, q), ByteAt(src, 3 * q), ByteAt(src, 3 * q + 1), ByteAt(src, 3 * q + 2);
            && SextetOf(g, 0) == a / 4 && SextetOf(g, 1) == a % 4 * 16 + b / 16
            && SextetOf(g, 2) == b % 16 * 4 + c / 64 && SextetOf(g, 3) == c % 64
  {
    hide SextetOf, ByteAt;
    SextetsOfBytes(ByteAt(src, 3 * q), ByteAt(src, 3 * q + 1), ByteAt(src, 3 * q + 2));
  }

  lemma CharPosition(i: nat, r: nat, shift: nat)
    requires shift == 8 * (i + 1) - 6 * r && 6 <= shift <= 12
    ensures var q := i / 3;
            match i % 3
            case 0 => i == 3 * q && shift == 8 && r == 4 * q
            case 1 => i == 3 * q + 1 && shift == 10 && r == 4 * q + 1
            case _ => i == 3 * q + 2 && ((shift == 12 && r == 4 * q + 2) || (shift == 6 && r == 4 * q + 3))
  {
  }

  lemma CharsLeft(n: nat, r: nat, shift: nat)
    requires shift == 8 * n - 6 * r && shift < 6
    ensures if shift == 0 then r == (4 * n + 2) / 3 else r + 1 == (4 * n + 2) / 3
  {
  }

  lemma NothingPending(src: seq<byte>)
    ensures Pending(src, 0, ToUint32(0))
  {
  }

  lemma EncodedChar(src: seq<byte>, i: nat, u: word, accu: int32, result: string, shift: nat)
    requires Pending(src, i, u) && ToUint32(accu) == (u * 256 + ByteAt(src, i)) % TWO_32
    requires shift == 8 * (i + 1) - 6 * |result| && 6 <= shift <= 12
    requires |result| < |Encode(src)| && result <= Encode(src)
    ensures 0 <= Extract(accu, shift - 6, 63) < 64
    ensures result + [Digit(Extract(accu, shift - 6, 63))] <= Encode(src)
  {
    hide Pending, ByteAt, Pow2, Extract, SextetOf, InputGroup, Digit, ToUint32;
    var r := |result|;
    NextChar(src, i, u, r, shift);
    ExtractPattern(accu, shift - 6, Pow2(shift - 6));
    assert result + [Encode(src)[r]] == Encode(src)[..r + 1];
  }

  method B64Encode(bytes: seq<byte>, optLength: nat) returns (result: string)
    ensures result == Encode(Source(bytes, optLength))
  {
    hide Encode, SextetOf, InputGroup, Pending, Pow2, Accumulate, Extract, JsShiftLeft;
    PowersUsed();
    NothingPending(Source(bytes, optLength));
    ghost var src := Source(bytes, optLength);
    var length: nat := if optLength == 0 then |bytes| else optLength;
    result := "";
    var shift, accu: int32, inputIndex := 0, 0, 0;
    while length > 0
      invariant length + inputIndex == |src| && shift == 8 * inputIndex - 6 * |result| && 0 <= shift < 6
      invariant result <= Encode(src) && Pending(src, inputIndex, ToUint32(accu))
    {
      length := length - 1;
      ghost var accu0, u, i := accu, ToUint32(accu), inputIndex;
      accu := Accumulate(accu, 8, ByteAt(bytes, inputIndex));
      inputIndex := inputIndex + 1;
      shift := shift + 8;
      AccumulatePattern(accu0, 8, 256, ByteAt(src, i));
      PendingNext(src, i, u);
      while shift >= 6
        invariant shift == 8 * (i + 1) - 6 * |result| && 0 <= shift <= 12
        invariant result <= Encode(src)
      {
        EncodedChar(src, i, u, accu, result, shift);
        var v := Extract(accu, shift - 6, 63);
        result := result + [OutChar(v)];
        shift := shift - 6;
      }
    }
    CharsLeft(|src|, |result|, shift);
    if shift != 0 {
      ghost var accu0, u := accu, ToUint32(accu);
      accu := JsShiftLeft(accu, 8);
      shift := shift + 8;
      ShiftPattern(accu0, 8);
      EncodedChar(src, inputIndex, u, accu, result, shift);
      var v := Extract(accu, shift - 6, 63);
      result := result + [OutChar(v)];
    }
  }

  // ----- decoding

  /** One more than the value of each character from 32 to 127, or zero. */
  const B64_INMAP := [
    [0, 0, 0, 0, 0, 0, 0, 0, 0, 0, 0, 0, 0, 63, 0, 0],
    [53, 54, 55, 56, 57, 58, 59, 60, 61, 62, 0, 0, 0, 0, 0, 0],
    [0, 1, 2, 3, 4, 5, 6, 7, 8, 9, 10, 11, 12, 13, 14, 15],
    [16, 17, 18, 19, 20, 21, 22, 23, 24, 25, 26, 0, 0, 0, 0, 64],
    [0, 27, 28, 29, 30, 31, 32, 33, 34, 35, 36, 37, 38, 39, 40, 41],
    [42, 43, 44, 45, 46, 47, 48, 49, 50, 51, 52, 0, 0, 0, 0, 0]]

  function InMap(k: nat): (v: int)
    requires k < 96
    ensures var c := (k + 32) as char; v == if InAlphabet(c) then Value(c) as int + 1 else 0
  {
    InMapRow(k);
    B64_INMAP[k / 16][k % 16]
  }

  lemma InMapRow(k: nat)
    requires k < 96
    ensures |B64_INMAP[k / 16]| == 16
    ensures var c := (k + 32) as char; B64_INMAP[k / 16][k % 16] == if InAlphabet(c) then Value(c) as int + 1 else 0
  {
  }

  /** The low bits of the accumulator that belong to the next byte: 0, 6, 4 or 2 of them. */
  ghost predicate Waiting(s: string, i: nat, u: word) {
    match i % 4
    case 0 => true
    case 1 => u % 64 == ValueAt(s, i - 1)
    case 2 => u % 16 == ValueAt(s, i - 1) % 16
    case _ => u % 4 == ValueAt(s, i - 1) % 4
  }

  lemma LowSextets(u: word, v: sextet)
    ensures var w := (u * 64 + v) % TWO_32;
            && w % 64 == v && w % 16 == v % 16 && w % 4 == v % 4
            && w / 16 % 256 == u % 64 * 4 + v / 16 && w / 4 % 256 == u % 16 * 16 + v / 4 && w % 256 == u % 4 * 64 + v
  {
    TopSextetLost(u, v);
    JoinedSextet(u % 0x400_0000, v);
  }

  lemma TopSextetLost(u: word, v: sextet)
    ensures var hi := u % 0x400_0000;
            (u * 64 + v) % TWO_32 == hi * 64 + v && u % 64 == hi % 64 && u % 16 == hi % 16 && u % 4 == hi % 4
  {
    var q, hi := u / 0x400_0000, u % 0x400_0000;
    assert u == q * 0x400_0000 + hi;
    UniqueRemainder(u * 64 + v, TWO_32, q, hi * 64 + v);
    UniqueRemainder(u, 64, q * 0x10_0000 + hi / 64, hi % 64);
    UniqueRemainder(u, 16, q * 0x40_0000 + hi / 16, hi % 16);
    UniqueRemainder(u, 4, q * 0x100_0000 + hi / 4, hi % 4);
  }

  lemma JoinedSextet(hi: nat, v: sextet)
    ensures var w := hi * 64 + v;
            && w % 64 == v && w % 16 == v % 16 && w % 4 == v % 4
            && w / 16 % 256 == hi % 64 * 4 + v / 16 && w / 4 % 256 == hi % 16 * 16 + v / 4 && w % 256 == hi % 4 * 64 + v
  {
    var w := hi * 64 + v;
    UniqueRemainder(w, 64, hi, v);
    UniqueRemainder(w, 16, 4 * hi + v / 16, v % 16);
    UniqueRemainder(w, 4, 16 * hi + v / 4, v % 4);
    UniqueRemainder(w, 256, hi / 4, hi % 4 * 64 + v);
    UniqueRemainder(4 * hi + v / 16, 256, hi / 64, hi % 64 * 4 + v / 16);
    UniqueRemainder(16 * hi + v / 4, 256, hi / 16, hi % 16 * 16 + v / 4);
  }

  lemma WaitingNext(s: string, i: nat, u: word)
    requires Waiting(s, i, u)
    ensures Waiting(s, i + 1, (u * 64 + ValueAt(s, i)) % TWO_32)
  {
    hide ValueAt;
    LowSextets(u, ValueAt(s, i));
  }

  lemma BytesOfOutput(s: string, q: nat)
    ensures var g, w, x, y, z := OutputGroup(s, q), ValueAt(s, 4 * q), ValueAt(s, 4 * q + 1), ValueAt(s, 4 * q + 2), ValueAt(s, 4 * q + 3);
            && ByteOf(g, 0) == 4 * (w as int) + x / 16 && ByteOf(g, 1) == x % 16 * 16 + y / 4 && ByteOf(g, 2) == y % 4 * 64 + z
  {
    hide ByteOf, ValueAt;
    BytesOfSextets(ValueAt(s, 4 * q), ValueAt(s, 4 * q + 1), ValueAt(s, 4 * q + 2), ValueAt(s, 4 * q + 3));
  }

  lemma BytePosition(i: nat, r: nat, shift: nat)
    requires shift == 6 * (i + 1) - 8 * r && 6 <= shift < 14
    ensures var q := i / 4;
            match i % 4
            case 0 => i == 4 * q && shift == 6
            case 1 => i == 4 * q + 1 && shift == 12 && r == 3 * q
            case 2 => i == 4 * q + 2 && shift == 10 && r == 3 * q + 1
            case _ => i == 4 * q + 3 && shift == 8 && r == 3 * q + 2
  {
    var q, m, d := i / 4, i % 4, r - 3 * (i / 4);
    assert shift == 6 * (m + 1) - 8 * d;
    assert d == if m == 0 then 0 else m - 1;
  }

  /** Byte `r` is found in the accumulator after character `i`, above the `shift - 8` lowest bits. */
  lemma NextByte(s: string, i: nat, u: word, r: nat, shift: nat)
    requires Waiting(s, i, u)
    requires shift == 6 * (i + 1) - 8 * r && 8 <= shift < 14
    ensures var w := (u * 64 + ValueAt(s, i)) % TWO_32;
            shift - 8 <= 4 && (shift - 8) % 2 == 0 && w / Pow2(shift - 8) % 256 == ByteOf(OutputGroup(s, r / 3), r % 3)
  {
    hide Pow2, ByteOf, ValueAt, OutputGroup;
    BytePosition(i, r, shift);
    LowSextets(u, ValueAt(s, i));
    PowersUsed();
    var q := i / 4;
    BytesOfOutput(s, q);
    if i == 4 * q + 1 {
      assert r / 3 == q && r % 3 == 0;
    } else if i == 4 * q + 2 {
      assert r / 3 == q && r % 3 == 1;
    } else {
      assert r / 3 == q && r % 3 == 2;
    }
  }

  lemma DecodedNext(s: string, i: nat, u: word, accu: int32, r: nat, shift: nat)
    requires Waiting(s, i, u) && ToUint32(accu) == (u * 64 + ValueAt(s, i)) % TWO_32
    requires shift == 6 * (i + 1) - 8 * r && 8 <= shift < 14
    ensures Extract(accu, shift - 8, 255) == ByteOf(OutputGroup(s, r / 3), r % 3)
  {
    hide Waiting, ValueAt, Pow2, Extract, ByteOf, OutputGroup, ToUint32;
    NextByte(s, i, u, r, shift);
    ExtractPattern(accu, shift - 8, Pow2(shift - 8));
  }

  lemma NothingWaiting(s: string)
    ensures Waiting(s, 0, ToUint32(0))
  {
  }

  lemma Undecodable(s: string, i: nat)
    requires i < |s| && !InAlphabet(s[i])
    ensures Decode(s) == []
  {
    hide InAlphabet;
  }

  lemma ValueOfCode(s: string, i: nat)
    requires i < |s|
    ensures InAlphabet(s[i]) ==> 32 <= s[i] as int <= 127 && ValueAt(s, i) == InMap(s[i] as int - 32) - 1
    ensures !InAlphabet(s[i]) && 32 <= s[i] as int <= 127 ==> InMap(s[i] as int - 32) == 0
  {
    hide Value;
  }

  method B64Decode(s: string) returns (bytes: seq<byte>)
    ensures bytes == Decode(s)
  {
    hide InMap, InAlphabet, ByteOf, OutputGroup, Waiting, Pow2, Accumulate, Extract, ValueAt;
    PowersUsed();
    NothingWaiting(s);
    bytes := [];
    var accu: int32, shift := 0, 0;
    for i := 0 to |s|
      invariant shift == 6 * i - 8 * |bytes| && 0 <= shift < 8
      invariant forall j :: 0 <= j < |bytes| ==> bytes[j] == ByteOf(OutputGroup(s, j / 3), j % 3)
      invariant forall j :: 0 <= j < i ==> InAlphabet(s[j])
      invariant Waiting(s, i, ToUint32(accu))
    {
      var c := s[i] as int;
      ValueOfCode(s, i);
      if c < 32 || c > 127 || InMap(c - 32) == 0 {
        Undecodable(s, i);
        return [];
      }
      ghost var accu0, u := accu, ToUint32(accu);
      accu := Accumulate(accu, 6, InMap(c - 32) - 1);
      shift := shift + 6;
      AccumulatePattern(accu0, 6, 64, ValueAt(s, i));
      WaitingNext(s, i, u);
      if shift >= 8 {
        DecodedNext(s, i, u, accu, |bytes|, shift);
        bytes := bytes + [Extract(accu, shift - 8, 255)];
        shift := shift - 8;
      }
    }
  }
}
