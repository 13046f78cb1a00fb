/** Where the constants of SHA-256 come from, as sections 4.2.2 and 5.3.3 of FIPS 180-4 say it. */
module Sha256Constants {
  import opened Words
  import opened Sha256Spec

  /** Eight of the first 64 primes. */
  function PrimeRow(i: nat): (r: seq<nat>)
    ensures |r| == 8
  {
    match i
    case 0 => [2, 3, 5, 7, 11, 13, 17, 19]
    case 1 => [23, 29, 31, 37, 41, 43, 47, 53]
    case 2 => [59, 61, 67, 71, 73, 79, 83, 89]
    case 3 => [97, 101, 103, 107, 109, 113, 127, 131]
    case 4 => [137, 139, 149, 151, 157, 163, 167, 173]
    case 5 => [179, 181, 191, 193, 197, 199, 211, 223]
    case 6 => [227, 229, 233, 239, 241, 251, 257, 263]
    case _ => [269, 271, 277, 281, 283, 293, 307, 311]
  }

  function CubeRoot(p: nat): nat {
    if p < 8 then 1 else if p < 27 then 2 else if p < 64 then 3 else if p < 125 then 4 else if p < 216 then 5 else 6
  }

  function SquareRoot(p: nat): nat {
    if p < 4 then 1 else if p < 9 then 2 else if p < 16 then 3 else 4
  }

  /** `k` are the first 32 bits of the fraction of the cube root of `p`, whose integral part is `a`. */
  predicate CubeRootBits(p: nat, a: nat, k: word) {
    var r := a * TWO_32 + k;
    && a * a * a <= p < (a + 1) * (a + 1) * (a + 1)
    && r * r * r <= p * TWO_32 * TWO_32 * TWO_32 < (r + 1) * (r + 1) * (r + 1)
  }

  predicate SquareRootBits(p: nat, a: nat, h: word) {
    var r := a * TWO_32 + h;
    && a * a <= p < (a + 1) * (a + 1)
    && r * r <= p * TWO_32 * TWO_32 < (r + 1) * (r + 1)
  }

  /** The entries of row `i` from `j` on are right. */
  predicate CubeRoots(i: nat, j: nat)
    decreases 8 - j
  {
    j >= 8 || (CubeRootBits(PrimeRow(i)[j], CubeRoot(PrimeRow(i)[j]), KRow(i)[j]) && CubeRoots(i, j + 1))
  }

  predicate SquareRoots(ps: seq<nat>, hs: seq<word>)
    requires |ps| == |hs|
  {
    ps == [] || (SquareRootBits(ps[0], SquareRoot(ps[0]), hs[0]) && SquareRoots(ps[1..], hs[1..]))
  }

  lemma {:induction false} CubeRootsAt(i: nat, from: nat, j: nat)
    requires from <= j < 8 && CubeRoots(i, from)
    ensures CubeRootBits(PrimeRow(i)[j], CubeRoot(PrimeRow(i)[j]), KRow(i)[j])
    decreases j - from
  {
    hide CubeRootBits, KRow, PrimeRow;
    if from < j {
      CubeRootsAt(i, from + 1, j);
    }
  }

  lemma {:induction false} SquareRootsAt(ps: seq<nat>, hs: seq<word>, j: nat)
    requires j < |ps| == |hs| && SquareRoots(ps, hs)
    ensures SquareRootBits(ps[j], SquareRoot(ps[j]), hs[j])
  {
    hide SquareRootBits;
    if j > 0 {
      SquareRootsAt(ps[1..], hs[1..], j - 1);
    }
  }

  lemma Row0() ensures CubeRoots(0, 0) { }
  lemma Row1() ensures CubeRoots(1, 0) { }
  lemma Row2() ensures CubeRoots(2, 0) { }
  lemma Row3() ensures CubeRoots(3, 0) { }
  lemma Row4() ensures CubeRoots(4, 0) { }
  lemma Row5() ensures CubeRoots(5, 0) { }
  lemma Row6() ensures CubeRoots(6, 0) { }
  lemma Row7() ensures CubeRoots(7, 0) { }
  lemma HRow() ensures SquareRoots(PrimeRow(0), H0()) { }

  /** Each round constant is the first 32 bits of the fraction of the cube root of its prime. */
  lemma KIsCubeRoot(t: nat)
    requires t < 64
    ensures var p := PrimeRow(t / 8)[t % 8]; CubeRootBits(p, CubeRoot(p), K(t))
  {
    hide CubeRoots, CubeRootBits, CubeRoot, KRow, PrimeRow;
    Row0();
    Row1();
    Row2();
    Row3();
    Row4();
    Row5();
    Row6();
    Row7();
    assert CubeRoots(t / 8, 0);
    CubeRootsAt(t / 8, 0, t % 8);
  }

  /** Each initial hash word is the first 32 bits of the fraction of the square root of its prime. */
  lemma HIsSquareRoot(j: nat)
    requires j < 8
    ensures var p := PrimeRow(0)[j]; SquareRootBits(p, SquareRoot(p), H0()[j])
  {
    hide SquareRoots, SquareRootBits, SquareRoot, H0, PrimeRow;
    HRow();
    SquareRootsAt(PrimeRow(0), H0(), j);
  }
}
