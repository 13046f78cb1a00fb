/** The ASN.1 form of an ECDSA signature: a SEQUENCE of two INTEGERs (sections 8.1, 8.3 and 8.9 of X.690). */
module Asn1 {
  import opened Words
  import opened Framing

  const ASN_INT: byte := 0x02
  const ASN_SEQUENCE: byte := 0x30

  datatype Signature = Signature(r: seq<byte>, s: seq<byte>)

  // ----- parsing

  /** A tagged integer at `off`; a byte behind the end compares unequal to any tag. */
  function ParseInt(a: seq<byte>, off: nat): Option<seq<byte>> {
    if off >= |a| || a[off] != ASN_INT then None
    else
      var l := if off + 1 < |a| then a[off + 1] else 0;
      if l >= 0x80 || off + 2 + l > |a| then None else Some(a[off + 2..off + 2 + l])
  }

  function Parse(a: seq<byte>): Option<Signature> {
    if |a| < 6 || a[0] != ASN_SEQUENCE || a[1] >= 0x80 || |a| != 2 + a[1] as int then None
    else
      var r := ParseInt(a, 2);
      if r.None? then None
      else
        var s := ParseInt(a, 4 + |r.value|);
        if s.None? then None else Some(Signature(r.value, s.value))
  }

  // ----- printing

  /** A zero byte in front keeps a number with its top bit set positive. */
  function Positive(b: seq<byte>): seq<byte> {
    if b != [] && b[0] >= 0x80 then [0] + b else b
  }

  function BodyLength(sig: Signature): nat {
    4 + |Positive(sig.r)| + |Positive(sig.s)|
  }

  function PrintInt(b: seq<byte>): seq<byte> {
    [ASN_INT, |b| % 256] + b
  }

  /** The printed form; a byte holds each length. */
  function Print(sig: Signature): seq<byte> {
    [ASN_SEQUENCE, BodyLength(sig) % 256] + (PrintInt(Positive(sig.r)) + PrintInt(Positive(sig.s)))
  }

  // ----- the grammar

  /** `a` is a SEQUENCE with short lengths that holds the two INTEGERs and then, perhaps, something else. */
  ghost predicate Encodes(a: seq<byte>, sig: Signature, trailing: seq<byte>) {
    && |sig.r| + |sig.s| + |trailing| + 4 < 0x80
    && a == [ASN_SEQUENCE, |sig.r| + |sig.s| + |trailing| + 4] + ((PrintInt(sig.r) + PrintInt(sig.s)) + trailing)
  }

  /** `l` bytes with their header stand at `off`. */
  lemma ParseIntIffPrinted(a: seq<byte>, off: nat, b: seq<byte>)
    ensures ParseInt(a, off) == Some(b)
       <==> |b| < 0x80 && off + 2 + |b| <= |a| && a[off..off + 2 + |b|] == PrintInt(b)
  {
    if ParseInt(a, off) == Some(b) {
      assert a[off..off + 2 + |b|] == [a[off], a[off + 1]] + a[off + 2..off + 2 + |b|];
    }
    if |b| < 0x80 && off + 2 + |b| <= |a| && a[off..off + 2 + |b|] == PrintInt(b) {
      var p := a[off..off + 2 + |b|];
      assert a[off] == p[0] && a[off + 1] == p[1];
      assert a[off + 2..off + 2 + |b|] == p[2..] == b;
    }
  }

  /** The parser accepts exactly the byte strings of the grammar, and returns the integers written there, which
      are slices of its input. */
  lemma ParseIffEncodes(a: seq<byte>, sig: Signature)
    ensures Parse(a) == Some(sig) <==> exists trailing :: Encodes(a, sig, trailing)
  {
    hide ParseInt, PrintInt;
    var n := 4 + |sig.r|;
    ParseIntIffPrinted(a, 2, sig.r);
    ParseIntIffPrinted(a, n, sig.s);
    PrintedLength(sig.r);
    PrintedLength(sig.s);
    if Parse(a) == Some(sig) {
      var trailing := a[n + 2 + |sig.s|..];
      assert a[2..] == (a[2..n] + a[n..n + 2 + |sig.s|]) + trailing;
      assert a == [a[0], a[1]] + a[2..];
      assert Encodes(a, sig, trailing);
    }
    if trailing :| Encodes(a, sig, trailing) {
      EncodesPieces(a, sig, trailing);
    }
  }

  lemma PrintedLength(b: seq<byte>)
    ensures |PrintInt(b)| == 2 + |b|
  {
  }

  lemma EncodesPieces(a: seq<byte>, sig: Signature, trailing: seq<byte>)
    requires Encodes(a, sig, trailing)
    ensures var n := 4 + |sig.r|;
            && |a| == 2 + a[1] as int && 6 <= |a| && a[0] == ASN_SEQUENCE && a[1] < 0x80 && n + 2 + |sig.s| <= |a|
            && a[2..n] == PrintInt(sig.r) && a[n..n + 2 + |sig.s|] == PrintInt(sig.s)
  {
    hide PrintInt;
    PrintedLength(sig.r);
    PrintedLength(sig.s);
    var n := 4 + |sig.r|;
    var body := (PrintInt(sig.r) + PrintInt(sig.s)) + trailing;
    assert a[2..] == body;
    assert a[2..n] == a[2..][..n - 2] == PrintInt(sig.r);
    assert a[n..n + 2 + |sig.s|] == a[2..][n - 2..n + |sig.s|] == PrintInt(sig.s);
  }

  // ----- round trip

  /** A printed signature is parsed back, with its zero bytes, if its body has at most 127 bytes, and is not
      parsed at all if it is longer. */
  lemma RoundTrip(sig: Signature)
    ensures Parse(Print(sig)) == if BodyLength(sig) < 0x80 then Some(Signature(Positive(sig.r), Positive(sig.s))) else None
  {
    hide ParseInt, Positive, PrintInt;
    var printed, p := Print(sig), Signature(Positive(sig.r), Positive(sig.s));
    PrintedLength(p.r);
    PrintedLength(p.s);
    assert |printed| == 2 + BodyLength(sig) && printed[1] == BodyLength(sig) % 256;
    if BodyLength(sig) < 0x80 {
      var body := PrintInt(p.r) + PrintInt(p.s);
      assert body + [] == body;
      assert Encodes(printed, p, []);
      ParseIffEncodes(printed, p);
    }
  }

  // ----- the numbers

  function Unsigned(b: seq<byte>): nat {
    if b == [] then 0 else 256 * Unsigned(b[..|b| - 1]) + b[|b| - 1]
  }

  function Power256(n: nat): (p: nat)
    ensures p >= 1
  {
    if n == 0 then 1 else 256 * Power256(n - 1)
  }

  /** Two's complement, as section 8.3.3 of X.690 reads the content of an INTEGER. */
  function Signed(b: seq<byte>): int {
    if b != [] && b[0] >= 0x80 then Unsigned(b) - Power256(|b|) else Unsigned(b)
  }

  lemma {:induction false} LeadingZero(b: seq<byte>)
    ensures Unsigned([0] + b) == Unsigned(b)
  {
    if b == [] {
      assert ([0] + b)[..0] == [];
    } else {
      assert ([0] + b)[..|b|] == [0] + b[..|b| - 1];
      LeadingZero(b[..|b| - 1]);
    }
  }

  /** What the printer writes, read as a signed number, is the number it was given; and it adds a byte only
      where the number would be misread without. */
  lemma PositiveKeepsValue(b: seq<byte>)
    ensures Signed(Positive(b)) == Unsigned(b)
    ensures Positive(b) != b <==> Signed(b) != Unsigned(b)
  {
    hide Unsigned, Power256;
    LeadingZero(b);
    if b != [] && b[0] >= 0x80 {
      assert |Positive(b)| != |b|;
    }
  }

  /** Printing and parsing keep both numbers, as unsigned ones before and as signed ones after. */
  lemma ValuesSurvive(sig: Signature)
    requires BodyLength(sig) < 0x80
    ensures var p := Parse(Print(sig));
            p.Some? && Signed(p.value.r) == Unsigned(sig.r) && Signed(p.value.s) == Unsigned(sig.s)
  {
    hide Parse, Print, Signed, Unsigned, Positive;
    RoundTrip(sig);
    PositiveKeepsValue(sig.r);
    PositiveKeepsValue(sig.s);
  }

  // ----- the printer

  /** A signature as the caller hands it over; printing may put zeros in front of its numbers. */
  class JsonSignature {
    var r: seq<byte>
    var s: seq<byte>

    ghost function Value(): Signature
      reads this
    {
      Signature(r, s)
    }

    constructor (r: seq<byte>, s: seq<byte>)
      ensures Value() == Signature(r, s)
    {
      this.r, this.s := r, s;
    }

    method ToAsn1() returns (buf: array<byte>)
      modifies this
      ensures fresh(buf) && buf[..] == Print(old(Value()))
      ensures Value() == Signature(Positive(old(r)), Positive(old(s)))
    {
      if |r| > 0 && r[0] >= 0x80 {
        r := [0] + r;
      }
      if |s| > 0 && s[0] >= 0x80 {
        s := [0] + s;
      }
      buf := PrintBody();
    }

    method PrintBody() returns (buf: array<byte>)
      ensures fresh(buf)
      ensures var len := 4 + |r| + |s|; buf[..] == [ASN_SEQUENCE, len % 256] + (PrintInt(r) + PrintInt(s))
    {
      hide PrintInt;
      var len := 4 + |r| + |s|;
      buf := new byte[2 + len];
      buf[0], buf[1] := ASN_SEQUENCE, len % 256;
      ghost var header := [ASN_SEQUENCE, len % 256];
      assert buf[..2] == header;
      var i := SetInt(buf, 2, r);
      i := SetInt(buf, i, s);
      assert buf[..i] == buf[..];
      assert header + PrintInt(r) + PrintInt(s) == header + (PrintInt(r) + PrintInt(s));
    }

    static method SetInt(buf: array<byte>, start: nat, b: seq<byte>) returns (i: nat)
      requires start + 2 + |b| <= buf.Length
      modifies buf
      ensures i == start + 2 + |b| && buf[..i] == old(buf[..start]) + PrintInt(b)
    {
      buf[start], buf[start + 1] := ASN_INT, |b| % 256;
      forall k | 0 <= k < |b| {
        buf[start + 2 + k] := b[k];
      }
      i := start + 2 + |b|;
    }
  }
}
