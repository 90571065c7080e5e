/** The Internet checksum of RFC 1071, as internal/pkt computes it. */
module InternetChecksum {
  import opened Wire

  /** The longest buffer whose word sum fits in 32 bits: 65537 words of 0xFFFF. */
  const SAFE_LENGTH: nat := 131074

  /** The sum of the buffer's 16-bit words, an odd last octet padded with zero. */
  function WordSum(b: Bytes): (s: nat) {
    if |b| == 0 then 0
    else if |b| == 1 then b[0] as int * 0x100
    else U16At(b, 0) + WordSum(b[2..])
  }

  /** Adding carries back in until the sum fits in 16 bits. */
  function Fold(s: nat): u16 {
    if s < 0x1_0000 then s else Fold(s % 0x1_0000 + s / 0x1_0000)
  }

  /** What `checksum` returns for any buffer: the accumulator is a uint32 and may wrap. */
  function Checksum(b: Bytes): u16 {
    0xFFFF - Fold(Wrapped(WordSum(b)))
  }

  function Wrapped(n: nat): u32 {
    n % 0x1_0000_0000
  }

  lemma AddWraps(total: nat, w: u16)
    ensures Add32(Wrapped(total), w) == Wrapped(total + w)
  {
  }

  /** The folding loop of `checksum`. */
  method FoldCarries(s: u32) returns (r: u16)
    ensures r == Fold(s)
  {
    var sum := s;
    while sum / 0x1_0000 != 0
      invariant Fold(sum) == Fold(s)
      decreases sum
    {
      sum := sum % 0x1_0000 + sum / 0x1_0000;
    }
    r := sum;
  }

  /** The accumulating loop of `checksum`. */
  method SumWords(b: Bytes) returns (sum: u32)
    ensures sum == Wrapped(WordSum(b))
  {
    sum := 0;
    assert Wrapped(0) == 0;
    hide Wrapped, Add32;
    ghost var total: nat := 0;
    var i := 0;
    while i + 1 < |b|
      invariant 0 <= i <= |b| && i % 2 == 0
      invariant total + WordSum(b[i..]) == WordSum(b) && sum == Wrapped(total)
    {
      assert b[i..][2..] == b[i + 2..];
      var w := U16At(b, i);
      assert w == U16At(b[i..], 0);
      AddWraps(total, w);
      sum, total := Add32(sum, w), total + w;
      i := i + 2;
    }
    if |b| % 2 == 1 {
      var w := b[|b| - 1] as int * 0x100;
      AddWraps(total, w);
      sum, total := Add32(sum, w), total + w;
    }
  }

  /** `checksum`. */
  method ComputeChecksum(b: Bytes) returns (ck: u16)
    ensures ck == Checksum(b)
  {
    var sum := SumWords(b);
    var folded := FoldCarries(sum);
    ck := 0xFFFF - folded;
  }

  /** One's-complement addition of two 16-bit words: the carry comes back in at the bottom. */
  function OnesAdd(a: u16, b: u16): u16 {
    if a as int + b as int >= 0x1_0000 then a as int + b as int - 0xFFFF else a as int + b as int
  }

  /** RFC 1071's definition: the words added pairwise in one's complement. */
  function OnesSum(b: Bytes): u16 {
    if |b| == 0 then 0
    else if |b| == 1 then b[0] as int * 0x100
    else OnesAdd(U16At(b, 0), OnesSum(b[2..]))
  }

  /** The non-zero residue of `s` modulo 0xFFFF, or zero for zero. */
  function Residue(s: nat): nat {
    if s == 0 then 0 else 1 + (s - 1) % 0xFFFF
  }

  lemma ResidueOfFolded(s: nat)
    ensures Residue(s % 0x1_0000 + s / 0x1_0000) == Residue(s)
  {
    if s > 0 {
      assert s - 1 == (s % 0x1_0000 + s / 0x1_0000 - 1) + 0xFFFF * (s / 0x1_0000);
    }
  }

  lemma {:induction false} FoldIsResidue(s: nat)
    ensures Fold(s) == Residue(s)
  {
    hide Residue;
    if s >= 0x1_0000 {
      FoldIsResidue(s % 0x1_0000 + s / 0x1_0000);
      ResidueOfFolded(s);
    } else {
      SmallResidue(s);
    }
  }

  lemma SmallResidue(s: u16)
    ensures Residue(s) == s
  {
  }

  /** The accumulator cannot overflow on a buffer of at most SAFE_LENGTH octets. */
  lemma {:induction false} NoOverflow(b: Bytes)
    ensures WordSum(b) <= (|b| + 1) / 2 * 0xFFFF
    ensures |b| <= SAFE_LENGTH ==> WordSum(b) < 0x1_0000_0000
  {
    if |b| >= 2 {
      NoOverflow(b[2..]);
    }
  }

  lemma OnesAddResidue(w: u16, t: nat)
    ensures Residue(t) < 0x1_0000 && OnesAdd(w, Residue(t)) == Residue(w + t)
  {
    if t > 0 {
      var r := (t - 1) % 0xFFFF;
      assert t - 1 == (t - 1) / 0xFFFF * 0xFFFF + r;
      assert w + t - 1 == (t - 1) / 0xFFFF * 0xFFFF + (r + w);
      assert (w + t - 1) % 0xFFFF == (r + w) % 0xFFFF;
    }
  }

  lemma {:induction false} OnesSumIsResidue(b: Bytes)
    ensures OnesSum(b) == Residue(WordSum(b))
  {
    if |b| < 2 {
      SmallResidue(WordSum(b));
    } else {
      hide Residue, OnesAdd;
      OnesSumIsResidue(b[2..]);
      OnesAddResidue(U16At(b, 0), WordSum(b[2..]));
    }
  }

  lemma ChecksumIsResidue(b: Bytes)
    requires |b| <= SAFE_LENGTH
    ensures Checksum(b) == 0xFFFF - Residue(WordSum(b))
  {
    hide WordSum, Fold, Residue;
    NoOverflow(b);
    FoldIsResidue(WordSum(b));
  }

  /** The result is the complement of the one's-complement word sum. */
  lemma ChecksumIsComplement(b: Bytes)
    requires |b| <= SAFE_LENGTH
    ensures Checksum(b) == 0xFFFF - OnesSum(b)
  {
    ChecksumIsResidue(b);
    OnesSumIsResidue(b);
  }

  lemma ResidueFull(s: nat)
    ensures Residue(s) == 0xFFFF <==> s > 0 && s % 0xFFFF == 0
  {
    if s > 0 {
      var q, r := (s - 1) / 0xFFFF, (s - 1) % 0xFFFF;
      assert s == q * 0xFFFF + r + 1;
      assert r == 0xFFFE ==> s == (q + 1) * 0xFFFF;
    }
  }

  /** Exactly when the result is zero. */
  lemma ChecksumZero(b: Bytes)
    requires |b| <= SAFE_LENGTH
    ensures Checksum(b) == 0 <==> WordSum(b) > 0 && WordSum(b) % 0xFFFF == 0
  {
    ChecksumIsResidue(b);
    ResidueFull(WordSum(b));
  }

  lemma {:induction false} WordSumConcat(a: Bytes, c: Bytes)
    requires |a| % 2 == 0
    ensures WordSum(a + c) == WordSum(a) + WordSum(c)
  {
    if |a| == 0 {
      assert a + c == c;
    } else {
      WordSumConcat(a[2..], c);
      assert (a + c)[2..] == a[2..] + c;
    }
  }

  lemma WordSumSplit(z: Bytes, off: nat)
    requires off % 2 == 0 && off + 2 <= |z|
    ensures WordSum(z) == WordSum(z[..off]) + U16At(z, off) + WordSum(z[off + 2..])
  {
    assert z == z[..off] + z[off..];
    WordSumConcat(z[..off], z[off..]);
    assert z[off..][2..] == z[off + 2..];
  }

  /** Writing a word over a zeroed, aligned field adds exactly that word. */
  lemma WordSumPatched(z: Bytes, off: nat, v: u16)
    requires off % 2 == 0 && off + 2 <= |z| && z[off] == 0 && z[off + 1] == 0
    ensures WordSum(Patched(z, off, Put16(v))) == WordSum(z) + v
  {
    var w := Put16(v);
    var p := Patched(z, off, w);
    assert p[..off] == z[..off] && p[off + 2..] == z[off + 2..];
    assert U16At(p, off) == U16At(w, 0);
    WordSumSplit(z, off);
    WordSumSplit(p, off);
  }

  lemma ComplementResidue(s: nat)
    ensures Residue(s) <= 0xFFFF && Residue(s + (0xFFFF - Residue(s))) == 0xFFFF
  {
    if s > 0 {
      var q := (s - 1) / 0xFFFF;
      assert s + (0xFFFF - Residue(s)) == (q + 1) * 0xFFFF;
    }
    ResidueFull(s + (0xFFFF - Residue(s)));
  }

  /** A packet whose zeroed checksum field is filled with its own checksum re-checks to zero. */
  lemma FilledVerifies(z: Bytes, off: nat)
    requires off % 2 == 0 && off + 2 <= |z| <= SAFE_LENGTH && z[off] == 0 && z[off + 1] == 0
    ensures Checksum(Patched(z, off, Put16(Checksum(z)))) == 0
  {
    var ck := Checksum(z);
    ChecksumIsResidue(z);
    ChecksumIsResidue(Patched(z, off, Put16(ck)));
    WordSumPatched(z, off, ck);
    ComplementResidue(WordSum(z));
  }
}
