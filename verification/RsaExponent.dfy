/** The exponent loop of `rsaPublicKey` (server/auth/jwks.go) on Go's 64-bit signed `int`. */
module RsaExponent {
  type Octet = x: int | 0 <= x < 256

  const TWO_63 := 0x8000_0000_0000_0000
  const TWO_64 := 0x1_0000_0000_0000_0000

  /** How often 2^64 must be taken off to land in the signed 64-bit range. */
  function Wraps(x: int): int { (x + TWO_63) / TWO_64 }

  /** Two's complement reduction to 64 bits. */
  function Int64(x: int): (r: int)
    ensures -TWO_63 <= r < TWO_63
    ensures -TWO_63 <= x < TWO_63 <==> r == x
  {
    x - Wraps(x) * TWO_64
  }

  /** OS2IP, section 4.2 of RFC 8017: the big-endian value of an octet string. */
  function Os2ip(s: seq<Octet>): nat {
    if s == [] then 0 else Os2ip(s[..|s| - 1]) * 256 + s[|s| - 1]
  }

  /** Equal modulo 2^64 means equal after reduction. */
  lemma Int64Unique(x: int, y: int, k: int)
    requires x - y == k * TWO_64
    ensures Int64(x) == Int64(y)
  {
    hide Wraps;
    var m := k - Wraps(x) + Wraps(y);
    assert Int64(x) - Int64(y) == m * TWO_64;
    assert m == 0;
  }

  /** One loop turn commutes with the reduction. */
  lemma StepReduces(e: int, b: int)
    ensures Int64(Int64(Int64(e) * 256) + b) == Int64(e * 256 + b)
  {
    hide Wraps;
    var shifted := Int64(e) * 256;
    var k := 256 * Wraps(e) + Wraps(shifted);
    assert e * 256 + b - (Int64(shifted) + b) == k * TWO_64;
    Int64Unique(e * 256 + b, Int64(shifted) + b, k);
  }

  /** `e = e<<8 + int(b)` over the decoded octets. */
  method Exponent(eBytes: seq<Octet>) returns (e: int)
    ensures e == Int64(Os2ip(eBytes))
    ensures e == Os2ip(eBytes) <==> Os2ip(eBytes) < TWO_63
  {
    e := 0;
    for i := 0 to |eBytes|
      invariant e == Int64(Os2ip(eBytes[..i]))
    {
      assert eBytes[..i + 1][..i] == eBytes[..i];
      StepReduces(Os2ip(eBytes[..i]), eBytes[i]);
      e := Int64(Int64(e * 256) + eBytes[i]);
    }
    assert eBytes[..|eBytes|] == eBytes;
  }

  function Power256(n: nat): nat {
    if n == 0 then 1 else 256 * Power256(n - 1)
  }

  /** The sum of the octets, each times 256 to the number of octets behind it. */
  function Weighted(s: seq<Octet>): nat {
    if s == [] then 0 else s[0] * Power256(|s| - 1) + Weighted(s[1..])
  }

  lemma {:induction false} WeightedSnoc(s: seq<Octet>, b: Octet)
    ensures Weighted(s + [b]) == Weighted(s) * 256 + b
  {
    if s != [] {
      WeightedSnoc(s[1..], b);
      assert (s + [b])[1..] == s[1..] + [b];
      assert s[0] * (256 * Power256(|s| - 1)) == s[0] * Power256(|s| - 1) * 256;
    }
  }

  lemma {:induction false} Os2ipIsWeighted(s: seq<Octet>)
    ensures Os2ip(s) == Weighted(s)
  {
    if s != [] {
      Os2ipIsWeighted(s[..|s| - 1]);
      assert s == s[..|s| - 1] + [s[|s| - 1]];
      WeightedSnoc(s[..|s| - 1], s[|s| - 1]);
    }
  }

  /** Leading zero octets never change the value. */
  lemma {:induction false} LeadingZeros(s: seq<Octet>, zeros: seq<Octet>)
    requires forall i | 0 <= i < |zeros| :: zeros[i] == 0
    ensures Os2ip(zeros + s) == Os2ip(s)
  {
    if s != [] {
      assert (zeros + s)[..|zeros + s| - 1] == zeros + s[..|s| - 1];
      LeadingZeros(s[..|s| - 1], zeros);
    } else if zeros != [] {
      assert zeros + s == zeros;
      LeadingZeros([], zeros[..|zeros| - 1]);
      assert zeros[..|zeros| - 1] + [] == zeros[..|zeros| - 1];
    }
  }
}
