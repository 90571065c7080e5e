/** Octets, fixed-width integers and the byte-order codecs the packet code is written in. */
module Wire {

  type byte = x: int | 0 <= x < 0x100
  type u16 = x: int | 0 <= x < 0x1_0000
  type u32 = x: int | 0 <= x < 0x1_0000_0000
  type u64 = x: int | 0 <= x < 0x1_0000_0000_0000_0000

  type Bytes = seq<byte>

  const TWO16: int := 0x1_0000
  const TWO32: int := 0x1_0000_0000

  /** Go's `uint32` addition. */
  function Add32(a: int, b: int): u32 {
    (a + b) % 0x1_0000_0000
  }

  datatype Option<+T> = None | Some(value: T)

  // Wire constants: bpf/traceflow.h and internal/tfmeta agree on all of them.
  const TOS: byte := 0xF8
  const TTL_MAX: byte := 255
  const VXLAN_PORT: u16 := 4789
  const META_SIZE: nat := 30
  const SIGNED_SIZE: nat := 62

  const ETH_IPV4: u16 := 0x0800
  const ETH_IPV6: u16 := 0x86DD
  const ETH_VLAN: u16 := 0x8100
  const ETH_QINQ: u16 := 0x88A8

  const PROTO_ICMP: byte := 1
  const PROTO_TCP: byte := 6
  const PROTO_UDP: byte := 17
  const PROTO_ICMPV6: byte := 58

  /** How an interface is parsed; `--iface-type` admits exactly these three. */
  datatype Mode = Regular | Vxlan | Auto

  // ---- big-endian and little-endian words ----

  function U16At(b: Bytes, i: nat): u16
    requires i + 2 <= |b|
  {
    b[i] as int * 0x100 + b[i + 1]
  }

  function U32At(b: Bytes, i: nat): u32
    requires i + 4 <= |b|
  {
    U16At(b, i) as int * 0x1_0000 + U16At(b, i + 2)
  }

  function Put16(v: u16): (b: Bytes)
    ensures |b| == 2 && U16At(b, 0) == v
  {
    [v / 0x100, v % 0x100]
  }

  function Put32(v: u32): (b: Bytes)
    ensures |b| == 4 && U32At(b, 0) == v
  {
    var hi, lo := Put16(v / 0x1_0000), Put16(v % 0x1_0000);
    assert U16At(hi + lo, 0) == U16At(hi, 0) && U16At(hi + lo, 2) == U16At(lo, 0);
    hi + lo
  }

  function LE16At(b: Bytes, i: nat): u16
    requires i + 2 <= |b|
  {
    b[i] as int + b[i + 1] as int * 0x100
  }

  function LE32At(b: Bytes, i: nat): u32
    requires i + 4 <= |b|
  {
    LE16At(b, i) as int + LE16At(b, i + 2) as int * 0x1_0000
  }

  function LE64At(b: Bytes, i: nat): u64
    requires i + 8 <= |b|
  {
    LE32At(b, i) + LE32At(b, i + 4) * 0x1_0000_0000
  }

  function PutLE32(v: u32): (b: Bytes)
    ensures |b| == 4 && LE32At(b, 0) == v
  {
    var lo, hi := v % 0x1_0000, v / 0x1_0000;
    var b := [lo % 0x100, lo / 0x100, hi % 0x100, hi / 0x100];
    assert LE16At(b, 0) == lo && LE16At(b, 2) == hi;
    b
  }

  function PutLE64(v: u64): (b: Bytes)
    ensures |b| == 8 && LE64At(b, 0) == v
  {
    var lo := PutLE32(v % 0x1_0000_0000);
    var hi := PutLE32(v / 0x1_0000_0000);
    assert LE32At(lo + hi, 0) == LE32At(lo, 0) && LE32At(lo + hi, 4) == LE32At(hi, 0);
    lo + hi
  }

  /** An octet and the multiple of 256 it is added to can be read back. */
  lemma LowOctet(a: byte, r: int, b: byte, s: int)
    requires a as int + 0x100 * r == b as int + 0x100 * s
    ensures a == b && r == s
  {
  }

  lemma LowHalf(a: u16, r: int, b: u16, s: int)
    requires a as int + 0x1_0000 * r == b as int + 0x1_0000 * s
    ensures a == b && r == s
  {
  }

  /** Four octets are determined by their little-endian value. */
  lemma LE32Injective(a: Bytes, i: nat, b: Bytes, j: nat)
    requires i + 4 <= |a| && j + 4 <= |b| && LE32At(a, i) == LE32At(b, j)
    ensures a[i..i + 4] == b[j..j + 4]
  {
    LowHalf(LE16At(a, i), LE16At(a, i + 2), LE16At(b, j), LE16At(b, j + 2));
    LowOctet(a[i], a[i + 1], b[j], b[j + 1]);
    LowOctet(a[i + 2], a[i + 3], b[j + 2], b[j + 3]);
  }

  lemma LowWord(a: u32, r: int, b: u32, s: int)
    requires a as int + TWO32 * r == b as int + TWO32 * s
    ensures a == b && r == s
  {
  }

  lemma LE64Injective(a: Bytes, i: nat, b: Bytes, j: nat)
    requires i + 8 <= |a| && j + 8 <= |b| && LE64At(a, i) == LE64At(b, j)
    ensures a[i..i + 8] == b[j..j + 8]
  {
    LowWord(LE32At(a, i), LE32At(a, i + 4), LE32At(b, j), LE32At(b, j + 4));
    LE32Injective(a, i, b, j);
    LE32Injective(a, i + 4, b, j + 4);
    assert a[i..i + 8] == a[i..i + 4] + a[i + 4..i + 8];
    assert b[j..j + 8] == b[j..j + 4] + b[j + 4..j + 8];
  }

  // ---- bit tests ----

  /** `tos & 0xFC == ToS`: the level-1 DSCP filter. */
  predicate Marked(tos: byte) {
    tos / 4 * 4 == TOS
  }

  predicate IsFIN(flags: byte) { flags % 2 == 1 }
  predicate IsSYN(flags: byte) { flags / 2 % 2 == 1 }
  predicate IsRST(flags: byte) { flags / 4 % 2 == 1 }
  predicate IsPSH(flags: byte) { flags / 8 % 2 == 1 }
  predicate IsACK(flags: byte) { flags / 16 % 2 == 1 }

  const SYN: byte := 0x02
  const ACK: byte := 0x10
  const FIN_ACK: byte := 0x11
  const SYN_ACK: byte := 0x12
  const PSH_ACK: byte := 0x18

  function Bit(b: bool): nat { if b then 1 else 0 }

  /** The flag tests read the bits of RFC 9293: FIN, SYN, RST, PSH and ACK from the lowest up. */
  lemma FlagBits(flags: byte, fin: bool, syn: bool, rst: bool, psh: bool, ack: bool, rest: nat)
    requires flags as int == Bit(fin) + 2 * Bit(syn) + 4 * Bit(rst) + 8 * Bit(psh) + 16 * Bit(ack) + 32 * rest
    ensures IsFIN(flags) == fin && IsSYN(flags) == syn && IsRST(flags) == rst
    ensures IsPSH(flags) == psh && IsACK(flags) == ack
  {
    assert flags as int / 2 == Bit(syn) + 2 * (Bit(rst) + 2 * (Bit(psh) + 2 * (Bit(ack) + 2 * rest)));
    assert flags as int / 4 == Bit(rst) + 2 * (Bit(psh) + 2 * (Bit(ack) + 2 * rest));
    assert flags as int / 8 == Bit(psh) + 2 * (Bit(ack) + 2 * rest);
    assert flags as int / 16 == Bit(ack) + 2 * rest;
  }

  /** The level-1 filter is DSCP 62, whatever the two ECN bits. */
  lemma DscpBits(tos: byte, dscp: nat, ecn: nat)
    requires tos as int == 4 * dscp + ecn && ecn < 4
    ensures Marked(tos) <==> dscp == 62
  {
  }

  /** The I flag is the bit worth 8, whatever the others. */
  lemma VniBit(b: byte, high: nat, i: bool, low: nat)
    requires b as int == 16 * high + 8 * Bit(i) + low && low < 8
    ensures HasVni(b) == i
  {
  }

  /** The I flag of a VXLAN header's first octet: the VNI is valid. */
  predicate HasVni(b: byte) { b / 8 % 2 == 1 }

  function Zeros(n: nat): (z: Bytes)
    ensures |z| == n && forall i :: 0 <= i < n ==> z[i] == 0
  {
    seq(n, _ => 0)
  }

  // ---- writing into a buffer: Go's copy and binary.BigEndian.PutUint* ----

  /** What a buffer holds after `t` has been written at `off`. */
  function Patched(s: Bytes, off: nat, t: Bytes): (r: Bytes)
    requires off + |t| <= |s|
    ensures |r| == |s|
  {
    s[..off] + t + s[off + |t|..]
  }

  method Overwrite(b: array<byte>, off: nat, t: Bytes)
    requires off + |t| <= b.Length
    modifies b
    ensures b[..] == Patched(old(b[..]), off, t)
  {
    ghost var was := b[..];
    for i := 0 to |t|
      invariant forall k :: 0 <= k < b.Length ==> b[k] == if off <= k < off + i then t[k - off] else was[k]
    {
      b[off + i] := t[i];
    }
  }

  /** The buffer is still as `make` left it from `k` on. */
  ghost predicate ZeroFrom(b: array<byte>, k: nat)
    reads b
  {
    forall i :: k <= i < b.Length ==> b[i] == 0
  }

  /** A write into the part of a fresh buffer not yet written. */
  method WriteAt(b: array<byte>, off: nat, t: Bytes)
    requires off + |t| <= b.Length
    modifies b
    ensures b[..off + |t|] == old(b[..off]) + t
    ensures old(ZeroFrom(b, off)) ==> ZeroFrom(b, off + |t|)
  {
    ghost var was := b[..];
    Overwrite(b, off, t);
    ghost var now := b[..];
    assert b[..off + |t|] == now[..off + |t|] && old(b[..off]) == was[..off];
    forall i | off + |t| <= i < b.Length && old(ZeroFrom(b, off)) ensures b[i] == 0 {
      assert b[i] == now[i] && now[i] == was[i] && was[i] == old(b[i]);
    }
  }

  method WriteFirst(b: array<byte>, t: Bytes)
    requires |t| <= b.Length
    modifies b
    ensures b[..|t|] == t
    ensures old(ZeroFrom(b, 0)) ==> ZeroFrom(b, |t|)
  {
    WriteAt(b, 0, t);
    assert old(b[..0]) + t == t;
  }

  /** Octets skipped by the writes are zero. */
  lemma Skipped(b: array<byte>, k: nat, n: nat)
    requires k + n <= b.Length && ZeroFrom(b, k)
    ensures b[..k + n] == b[..k] + Zeros(n) && ZeroFrom(b, k + n)
  {
  }
}
