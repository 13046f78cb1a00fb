/** Base64url without padding, as sections 3.2, 4 and 5 of RFC 4648 define it. */
module Base64Spec {
  import opened Words

  type sextet = x: int | 0 <= x < 64

  /** Table 2 of RFC 4648. */
  function Digit(v: sextet): char {
    if v < 26 then (v + 'A' as int) as char
    else if v < 52 then (v as int - 26 + 'a' as int) as char
    else if v < 62 then (v as int - 52 + '0' as int) as char
    else if v == 62 then '-' else '_'
  }

  predicate InAlphabet(c: char) {
    'A' <= c <= 'Z' || 'a' <= c <= 'z' || '0' <= c <= '9' || c == '-' || c == '_'
  }

  function Value(c: char): (v: sextet)
    requires InAlphabet(c)
    ensures Digit(v) == c
  {
    if 'A' <= c <= 'Z' then c as int - 'A' as int
    else if 'a' <= c <= 'z' then c as int - 'a' as int + 26
    else if '0' <= c <= '9' then c as int - '0' as int + 52
    else if c == '-' then 62 else 63
  }

  lemma ValueOfDigit(v: sextet)
    ensures InAlphabet(Digit(v)) && Value(Digit(v)) == v
  {
  }

  predicate Alphabetic(s: string) {
    forall c :: c in s ==> InAlphabet(c)
  }

  function ByteAt(b: seq<byte>, i: nat): byte { if i < |b| then b[i] else 0 }

  /** Three bytes as a group of 24 bits; bytes after the end count as zero. */
  function InputGroup(b: seq<byte>, q: nat): nat {
    0x1_0000 * (ByteAt(b, 3 * q) as int) + 0x100 * (ByteAt(b, 3 * q + 1) as int) + ByteAt(b, 3 * q + 2)
  }

  /** Part `k` of a group read as four sextets. */
  function SextetOf(group: nat, k: nat): sextet {
    match k
    case 0 => group / 0x4_0000 % 64
    case 1 => group / 0x1000 % 64
    case 2 => group / 0x40 % 64
    case _ => group % 64
  }

  function Encode(b: seq<byte>): (s: string)
    ensures |s| == (4 * |b| + 2) / 3
  {
    seq((4 * |b| + 2) / 3, j requires 0 <= j => Digit(SextetOf(InputGroup(b, j / 4), j % 4)))
  }

  function ValueAt(s: string, j: nat): sextet {
    if j < |s| && InAlphabet(s[j]) then Value(s[j]) else 0
  }

  /** Four characters as a group of 24 bits. */
  function OutputGroup(s: string, q: nat): nat {
    0x4_0000 * (ValueAt(s, 4 * q) as int) + 0x1000 * (ValueAt(s, 4 * q + 1) as int)
    + 0x40 * (ValueAt(s, 4 * q + 2) as int) + ValueAt(s, 4 * q + 3)
  }

  function ByteOf(group: nat, k: nat): byte {
    match k
    case 0 => group / 0x1_0000 % 256
    case 1 => group / 0x100 % 256
    case _ => group % 256
  }

  /** Characters outside the alphabet make the whole string undecodable; bits that fill no byte are dropped. */
  function Decode(s: string): seq<byte> {
    if Alphabetic(s) then seq(3 * |s| / 4, i requires 0 <= i => ByteOf(OutputGroup(s, i / 3), i % 3)) else []
  }

  /** Section 3.5: the bits behind the last whole byte are zero, and no character is superfluous. */
  predicate Canonical(s: string) {
    && Alphabetic(s) && |s| % 4 != 1
    && (|s| % 4 == 2 ==> ValueAt(s, |s| - 1) % 16 == 0)
    && (|s| % 4 == 3 ==> ValueAt(s, |s| - 1) % 4 == 0)
  }

  // ----- round trips

  lemma EncodeIsAlphabetic(b: seq<byte>)
    ensures Alphabetic(Encode(b))
  {
    hide Digit, InAlphabet, SextetOf, InputGroup;
    forall c | c in Encode(b)
      ensures InAlphabet(c)
    {
      var j :| 0 <= j < |Encode(b)| && Encode(b)[j] == c;
      ValueOfDigit(SextetOf(InputGroup(b, j / 4), j % 4));
    }
  }

  lemma SextetsOfBytes(a: byte, b: byte, c: byte)
    ensures var g := 0x1_0000 * (a as int) + 0x100 * (b as int) + c;
            && SextetOf(g, 0) == a / 4 && SextetOf(g, 1) == a % 4 * 16 + b / 16
            && SextetOf(g, 2) == b % 16 * 4 + c / 64 && SextetOf(g, 3) == c % 64
  {
    hide SextetOf;
    SextetsOfParts(a / 4, a % 4, b / 16, b % 16, c / 64, c % 64);
  }

  /** Bytes of six and two, four and four, and two and six bits. */
  lemma SextetsOfParts(a6: nat, a2: nat, b4: nat, b4': nat, c2: nat, c6: nat)
    requires a6 < 64 && a2 < 4 && b4 < 16 && b4' < 16 && c2 < 4 && c6 < 64
    ensures var g := 0x1_0000 * (4 * a6 + a2) + 0x100 * (16 * b4 + b4') + 64 * c2 + c6;
            SextetOf(g, 0) == a6 && SextetOf(g, 1) == a2 * 16 + b4 && SextetOf(g, 2) == b4' * 4 + c2 && SextetOf(g, 3) == c6
  {
    var g := 0x1_0000 * (4 * a6 + a2) + 0x100 * (16 * b4 + b4') + 64 * c2 + c6;
    assert g / 0x4_0000 == a6;
    assert g / 0x1000 == 64 * a6 + (a2 * 16 + b4);
    assert g / 0x40 == 64 * (64 * a6 + a2 * 16 + b4) + (b4' * 4 + c2);
  }

  lemma BytesOfGroup(a: byte, b: byte, c: byte)
    ensures var g := 0x1_0000 * (a as int) + 0x100 * (b as int) + c;
            ByteOf(g, 0) == a && ByteOf(g, 1) == b && ByteOf(g, 2) == c
  {
    var g := 0x1_0000 * (a as int) + 0x100 * (b as int) + c;
    assert g / 0x100 == 0x100 * (a as int) + b;
    assert g / 0x1_0000 == a;
  }

  lemma EncodedValue(b: seq<byte>, j: nat)
    requires Alphabetic(Encode(b))
    ensures ValueAt(Encode(b), j) == SextetOf(InputGroup(b, j / 4), j % 4)
  {
    hide Digit, InAlphabet, Alphabetic, SextetOf, InputGroup;
    if j < |Encode(b)| {
      ValueOfDigit(SextetOf(InputGroup(b, j / 4), j % 4));
    } else {
      BehindTheEnd(b, j);
    }
  }

  lemma BehindTheEnd(b: seq<byte>, j: nat)
    requires j >= (4 * |b| + 2) / 3
    ensures SextetOf(InputGroup(b, j / 4), j % 4) == 0
  {
    hide SextetOf;
    var q := j / 4;
    SextetsOfBytes(ByteAt(b, 3 * q), ByteAt(b, 3 * q + 1), ByteAt(b, 3 * q + 2));
  }

  lemma GroupOfSextets(a: byte, b: byte, c: byte)
    ensures var g := 0x1_0000 * (a as int) + 0x100 * (b as int) + c;
            g == 0x4_0000 * (SextetOf(g, 0) as int) + 0x1000 * (SextetOf(g, 1) as int) + 0x40 * (SextetOf(g, 2) as int) + SextetOf(g, 3)
  {
    hide SextetOf;
    SextetsOfBytes(a, b, c);
  }

  lemma SameGroup(b: seq<byte>, q: nat)
    requires Alphabetic(Encode(b))
    ensures OutputGroup(Encode(b), q) == InputGroup(b, q)
  {
    hide Encode, ValueAt, ByteAt, SextetOf;
    EncodedValue(b, 4 * q);
    EncodedValue(b, 4 * q + 1);
    EncodedValue(b, 4 * q + 2);
    EncodedValue(b, 4 * q + 3);
    GroupOfSextets(ByteAt(b, 3 * q), ByteAt(b, 3 * q + 1), ByteAt(b, 3 * q + 2));
  }

  /** Every byte sequence survives encoding and decoding. */
  lemma DecodeEncode(b: seq<byte>)
    ensures Decode(Encode(b)) == b
  {
    hide Digit, InAlphabet, Alphabetic, SextetOf, ByteOf, OutputGroup;
    EncodeIsAlphabetic(b);
    var d := Decode(Encode(b));
    assert |d| == |b|;
    forall i | 0 <= i < |b|
      ensures d[i] == b[i]
    {
      var q := i / 3;
      SameGroup(b, q);
      BytesOfGroup(ByteAt(b, 3 * q), ByteAt(b, 3 * q + 1), ByteAt(b, 3 * q + 2));
      assert i == 3 * q || i == 3 * q + 1 || i == 3 * q + 2;
    }
  }

  lemma BytesOfSextets(w: sextet, x: sextet, y: sextet, z: sextet)
    ensures var g := 0x4_0000 * (w as int) + 0x1000 * (x as int) + 0x40 * (y as int) + z;
            && ByteOf(g, 0) == 4 * (w as int) + x / 16 && ByteOf(g, 1) == x % 16 * 16 + y / 4 && ByteOf(g, 2) == y % 4 * 64 + z
  {
    var g := 0x4_0000 * (w as int) + 0x1000 * (x as int) + 0x40 * (y as int) + z;
    assert g / 0x1_0000 == 4 * (w as int) + x / 16 by {
      assert g == 0x1_0000 * (4 * (w as int) + x / 16) + (0x1000 * (x % 16) + 0x40 * (y as int) + z);
    }
    assert g / 0x100 == 0x100 * (4 * (w as int) + x / 16) + x % 16 * 16 + y / 4 by {
      assert g == 0x100 * (0x100 * (4 * (w as int) + x / 16) + x % 16 * 16 + y / 4) + y % 4 * 64 + z;
    }
    assert g % 0x100 == y % 4 * 64 + z by {
      assert g == 0x100 * (0x100 * (4 * (w as int) + x / 16) + x % 16 * 16 + y / 4) + y % 4 * 64 + z;
    }
  }

  lemma DecodedByte(s: string, i: nat)
    requires Alphabetic(s)
    ensures ByteAt(Decode(s), i) == if i < 3 * |s| / 4 then ByteOf(OutputGroup(s, i / 3), i % 3) else 0
  {
    hide Alphabetic, ByteOf, OutputGroup;
  }

  /** What encoding gives back for a character of a decoded string. */
  function Truncated(s: string, j: nat): sextet
    requires Alphabetic(s) && j < |s|
  {
    var v := ValueAt(s, j);
    if j < |s| - 1 then v else if |s| % 4 == 2 then v / 16 * 16 else if |s| % 4 == 3 then v / 4 * 4 else v
  }

  /** The `n` characters of a group are cut to the whole bytes they hold; `a`, `b` and `c` are these bytes. */
  lemma Regrouped(w: sextet, x: sextet, y: sextet, z: sextet, n: nat, a: byte, b: byte, c: byte)
    requires 2 <= n <= 4
    requires a == 4 * (w as int) + x / 16
    requires b == if n >= 3 then x % 16 * 16 + y / 4 else 0
    requires c == if n == 4 then y % 4 * 64 + z else 0
    ensures var g := 0x1_0000 * (a as int) + 0x100 * (b as int) + c;
            && SextetOf(g, 0) == w
            && SextetOf(g, 1) == (if n == 2 then x / 16 * 16 else x as int)
            && (n >= 3 ==> SextetOf(g, 2) == if n == 3 then y / 4 * 4 else y as int)
            && (n == 4 ==> SextetOf(g, 3) == z)
  {
    hide SextetOf;
    SextetsOfBytes(a, b, c);
    assert a / 4 == w && a % 4 == x / 16;
    assert n >= 3 ==> b / 16 == x % 16 && b % 16 == y / 4;
    assert n == 4 ==> c / 64 == y % 4;
  }

  function CharsIn(s: string, q: nat): nat
    requires 4 * q < |s|
  {
    if |s| - 4 * q < 4 then |s| - 4 * q else 4
  }

  lemma DecodedGroup(s: string, q: nat)
    requires Alphabetic(s) && |s| % 4 != 1 && 4 * q < |s|
    ensures var w, x, y, z := ValueAt(s, 4 * q), ValueAt(s, 4 * q + 1), ValueAt(s, 4 * q + 2), ValueAt(s, 4 * q + 3);
            var d, n := Decode(s), CharsIn(s, q);
            && ByteAt(d, 3 * q) == 4 * (w as int) + x / 16
            && ByteAt(d, 3 * q + 1) == (if n >= 3 then x % 16 * 16 + y / 4 else 0)
            && ByteAt(d, 3 * q + 2) == (if n == 4 then y % 4 * 64 + z else 0)
  {
    hide Alphabetic, ByteOf, Decode, ByteAt, ValueAt;
    DecodedByte(s, 3 * q);
    DecodedByte(s, 3 * q + 1);
    DecodedByte(s, 3 * q + 2);
    assert |s| == 4 * (|s| / 4) + |s| % 4 && 3 * |s| / 4 == 3 * (|s| / 4) + 3 * (|s| % 4) / 4;
    BytesOfSextets(ValueAt(s, 4 * q), ValueAt(s, 4 * q + 1), ValueAt(s, 4 * q + 2), ValueAt(s, 4 * q + 3));
  }

  lemma ReencodedGroup(s: string, q: nat)
    requires Alphabetic(s) && |s| % 4 != 1 && 4 * q < |s|
    ensures var g, n := InputGroup(Decode(s), q), CharsIn(s, q);
            && SextetOf(g, 0) == ValueAt(s, 4 * q)
            && SextetOf(g, 1) == (if n == 2 then ValueAt(s, 4 * q + 1) / 16 * 16 else ValueAt(s, 4 * q + 1))
            && (n >= 3 ==> SextetOf(g, 2) == if n == 3 then ValueAt(s, 4 * q + 2) / 4 * 4 else ValueAt(s, 4 * q + 2))
            && (n == 4 ==> SextetOf(g, 3) == ValueAt(s, 4 * q + 3))
  {
    hide Alphabetic, SextetOf, Decode, ByteAt, ValueAt;
    var d := Decode(s);
    DecodedGroup(s, q);
    Regrouped(ValueAt(s, 4 * q), ValueAt(s, 4 * q + 1), ValueAt(s, 4 * q + 2), ValueAt(s, 4 * q + 3), CharsIn(s, q),
              ByteAt(d, 3 * q), ByteAt(d, 3 * q + 1), ByteAt(d, 3 * q + 2));
  }

  lemma ReencodedValue(s: string, j: nat)
    requires Alphabetic(s) && |s| % 4 != 1 && j < |s|
    ensures SextetOf(InputGroup(Decode(s), j / 4), j % 4) == Truncated(s, j)
  {
    hide Alphabetic, SextetOf, Decode, InputGroup, ValueAt;
    ReencodedGroup(s, j / 4);
    assert j == 4 * (j / 4) + j % 4;
  }

  lemma CharInAlphabet(s: string, j: nat)
    requires Alphabetic(s) && j < |s|
    ensures InAlphabet(s[j])
  {
    assert s[j] in s;
  }

  lemma DigitsAgree(s: string, j: nat)
    requires Alphabetic(s) && |s| % 4 != 1 && j < |s|
    ensures |Encode(Decode(s))| == |s|
    ensures Encode(Decode(s))[j] == Digit(Truncated(s, j))
    ensures Digit(Truncated(s, j)) == s[j] <==> Truncated(s, j) == ValueAt(s, j)
  {
    hide Digit, InAlphabet, Alphabetic, SextetOf, InputGroup, OutputGroup, ByteOf, Truncated;
    ReencodedValue(s, j);
    ValueOfDigit(Truncated(s, j));
    ValueOfDigit(ValueAt(s, j));
    assert Digit(ValueAt(s, j)) == s[j] by {
      CharInAlphabet(s, j);
    }
  }

  /** A string comes back from decoding and encoding exactly if it is canonical. */
  lemma EncodeDecode(s: string)
    ensures Encode(Decode(s)) == s <==> Canonical(s)
  {
    hide Digit, InAlphabet, SextetOf, InputGroup, OutputGroup, ByteOf, ValueAt;
    if Alphabetic(s) && |s| % 4 != 1 {
      hide Alphabetic, Encode, Decode;
      if s != "" {
        DigitsAgree(s, |s| - 1);
      }
      if Canonical(s) {
        forall j | 0 <= j < |s|
          ensures |Encode(Decode(s))| == |s| && Encode(Decode(s))[j] == s[j]
        {
          DigitsAgree(s, j);
        }
        assert s == "" ==> |Encode(Decode(s))| == 0 by {
          DecodedLength(s);
        }
      }
    } else {
      DecodedLength(s);
    }
  }

  lemma DecodedLength(s: string)
    ensures |Decode(s)| == if Alphabetic(s) then 3 * |s| / 4 else 0
  {
    hide OutputGroup, ByteOf;
  }
}
