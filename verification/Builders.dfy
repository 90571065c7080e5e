/**
 * The packet builders of internal/pkt. Each IPv4/IPv6 pair that differs only in its
 * pseudo-header is one function of `v6`. A function gives the bytes; the method beside it
 * produces them by writing into a zeroed buffer at offsets, as the source does.
 */
module Builders {
  import opened Wire
  import opened Address
  import opened InternetChecksum

  const ECHO_REQUEST: byte := 8
  const ECHO_REPLY: byte := 0
  const ECHO_REQUEST6: byte := 128
  const ECHO_REPLY6: byte := 129

  // ---- L3 ----

  function IPv4Header(tos: byte, ttl: byte, proto: byte, src: IP, dst: IP, total: nat): (h: Bytes)
    ensures |h| == 20 && h[10] == 0 && h[11] == 0
    ensures h[12..16] == Field4(src) && h[16..20] == Field4(dst)
  {
    var h := [0x45, tos] + Put16(total % TWO16) + [0, 0, 0x40, 0, ttl, proto] + Zeros(2) + Field4(src) + Field4(dst);
    assert h[12..16] == Field4(src) && h[16..20] == Field4(dst);
    h
  }

  function IPv4(tos: byte, ttl: byte, proto: byte, src: IP, dst: IP, payload: Bytes): (p: Bytes)
    ensures |p| == 20 + |payload| && p[20..] == payload
    ensures p[0] == 0x45 && p[1] == tos && p[8] == ttl && p[9] == proto
    ensures p[12..16] == Field4(src) && p[16..20] == Field4(dst)
  {
    var h := IPv4Header(tos, ttl, proto, src, dst, 20 + |payload|);
    var p := Patched(h, 10, Put16(Checksum(h))) + payload;
    assert p[12..16] == h[12..16] && p[16..20] == h[16..20];
    p
  }

  function IPv6(tc: byte, hopLimit: byte, nextHdr: byte, src: IP, dst: IP, payload: Bytes): (p: Bytes)
    ensures |p| == 40 + |payload| && p[40..] == payload
    ensures p[0] == 0x60 + tc / 16 && p[1] == tc % 16 * 16 && p[6] == nextHdr && p[7] == hopLimit
    ensures p[8..24] == To16(src) && p[24..40] == To16(dst)
  {
    [0x60 + tc / 16, tc % 16 * 16, 0, 0] + Put16(|payload| % TWO16) + [nextHdr, hopLimit]
    + To16(src) + To16(dst) + payload
  }

  // ---- L4 ----

  /** The pseudo-header of RFC 768 and RFC 9293, or of section 8.1 of RFC 8200. */
  function Pseudo(v6: bool, proto: byte, src: IP, dst: IP, length: nat): (ph: Bytes)
    ensures |ph| == if v6 then 40 else 12
  {
    if v6 then To16(src) + To16(dst) + Put32(length % TWO32) + [0, 0, 0, proto]
    else Field4(src) + Field4(dst) + [0, proto] + Put16(length % TWO16)
  }

  /** `l4Checksum` and `l4Checksum6`. */
  function L4Checksum(v6: bool, proto: byte, src: IP, dst: IP, segment: Bytes): u16 {
    Checksum(Pseudo(v6, proto, src, dst, |segment|) + segment)
  }

  function IcmpBlank(icmpType: byte, id: u16, seqno: u16, payload: Bytes): (b: Bytes)
    ensures |b| == 8 + |payload| && b[2] == 0 && b[3] == 0 && b[0] == icmpType
    ensures U16At(b, 4) == id && U16At(b, 6) == seqno && b[8..] == payload
  {
    var i, n := Put16(id), Put16(seqno);
    var b := [icmpType, 0] + Zeros(2) + i + n + payload;
    assert U16At(b, 4) == U16At(i, 0) && U16At(b, 6) == U16At(n, 0);
    b
  }

  /** An IPv4 echo message is summed alone; ICMPv6 includes the pseudo-header. */
  function IcmpChecksum(v6: bool, src: IP, dst: IP, b: Bytes): u16 {
    if v6 then L4Checksum(true, PROTO_ICMPV6, src, dst, b) else Checksum(b)
  }

  function Icmp(v6: bool, icmpType: byte, id: u16, seqno: u16, src: IP, dst: IP, payload: Bytes): (b: Bytes)
    ensures |b| == 8 + |payload| && b[8..] == payload
    ensures b[0] == icmpType && U16At(b, 4) == id && U16At(b, 6) == seqno
  {
    var z := IcmpBlank(icmpType, id, seqno, payload);
    var b := Patched(z, 2, Put16(IcmpChecksum(v6, src, dst, z)));
    assert b[0] == z[0] && b[4] == z[4] && b[5] == z[5] && b[6] == z[6] && b[7] == z[7] && b[8..] == z[8..];
    b
  }

  function UdpBlank(sport: u16, dport: u16, payload: Bytes): (b: Bytes)
    ensures |b| == 8 + |payload| && b[6] == 0 && b[7] == 0
    ensures U16At(b, 0) == sport && U16At(b, 2) == dport && b[8..] == payload
  {
    var s, d := Put16(sport), Put16(dport);
    var b := s + d + Put16((8 + |payload|) % TWO16) + Zeros(2) + payload;
    assert U16At(b, 0) == U16At(s, 0) && U16At(b, 2) == U16At(d, 0);
    b
  }

  function Udp(v6: bool, src: IP, dst: IP, sport: u16, dport: u16, payload: Bytes): (b: Bytes)
    ensures |b| == 8 + |payload| && b[8..] == payload
    ensures U16At(b, 0) == sport && U16At(b, 2) == dport
  {
    var z := UdpBlank(sport, dport, payload);
    var b := Patched(z, 6, Put16(L4Checksum(v6, PROTO_UDP, src, dst, z)));
    assert b[0] == z[0] && b[1] == z[1] && b[2] == z[2] && b[3] == z[3] && b[8..] == z[8..];
    b
  }

  /** Ports, sequence number and acknowledgement: the first twelve octets of a segment. */
  function TcpNumbers(sport: u16, dport: u16, seqno: u32, ack: u32): (h: Bytes)
    ensures |h| == 12
    ensures U16At(h, 0) == sport && U16At(h, 2) == dport && U32At(h, 4) == seqno && U32At(h, 8) == ack
  {
    var s, d, q, a := Put16(sport), Put16(dport), Put32(seqno), Put32(ack);
    var h := s + d + q + a;
    assert U16At(h, 0) == U16At(s, 0) && U16At(h, 2) == U16At(d, 0);
    assert U32At(h, 4) == U32At(q, 0) && U32At(h, 8) == U32At(a, 0);
    h
  }

  function TcpBlank(sport: u16, dport: u16, seqno: u32, ack: u32, flags: byte, payload: Bytes): (b: Bytes)
    ensures |b| == 20 + |payload| && b[16] == 0 && b[17] == 0
    ensures b[..16] == TcpNumbers(sport, dport, seqno, ack) + [0x50, flags, 0xFF, 0xFF] && b[20..] == payload
  {
    TcpNumbers(sport, dport, seqno, ack) + [0x50, flags, 0xFF, 0xFF] + Zeros(4) + payload
  }

  /** A segment whose first sixteen octets are `h` and the four after them. */
  lemma TcpFields(b: Bytes, h: Bytes, flags: byte)
    requires |b| >= 20 && |h| == 12 && b[..16] == h + [0x50, flags, 0xFF, 0xFF]
    ensures U16At(b, 0) == U16At(h, 0) && U16At(b, 2) == U16At(h, 2)
    ensures U32At(b, 4) == U32At(h, 4) && U32At(b, 8) == U32At(h, 8)
    ensures b[12] == 0x50 && b[13] == flags
  {
    assert forall i :: 0 <= i < 16 ==> b[i] == b[..16][i];
  }

  function Tcp(v6: bool, src: IP, dst: IP, sport: u16, dport: u16, seqno: u32, ack: u32, flags: byte,
               payload: Bytes): (b: Bytes)
    ensures |b| == 20 + |payload| && b[20..] == payload
    ensures U16At(b, 0) == sport && U16At(b, 2) == dport && U32At(b, 4) == seqno && U32At(b, 8) == ack
    ensures b[12] == 0x50 && b[13] == flags
  {
    var h := TcpNumbers(sport, dport, seqno, ack);
    var z := TcpBlank(sport, dport, seqno, ack, flags, payload);
    var b := Patched(z, 16, Put16(L4Checksum(v6, PROTO_TCP, src, dst, z)));
    assert b[..16] == z[..16] && b[20..] == z[20..];
    TcpFields(b, h, flags);
    b
  }

  // ---- framing ----

  function Ethernet(dst: Mac, src: Mac, etherType: u16, payload: Bytes): (f: Bytes)
    ensures |f| == 14 + |payload| && f[14..] == payload
    ensures f[0..6] == dst && f[6..12] == src && U16At(f, 12) == etherType
  {
    var f := dst + src + Put16(etherType) + payload;
    assert f[12..14] == Put16(etherType);
    f
  }

  function EthernetVLAN(dst: Mac, src: Mac, vlan: u16, etherType: u16, payload: Bytes): (f: Bytes)
    ensures |f| == 18 + |payload| && f[18..] == payload
    ensures f[0..6] == dst && f[6..12] == src
    ensures U16At(f, 12) == ETH_VLAN && U16At(f, 14) == vlan % 0x1000 && U16At(f, 16) == etherType
  {
    var f := dst + src + Put16(ETH_VLAN) + Put16(vlan % 0x1000) + Put16(etherType) + payload;
    assert f[12..14] == Put16(ETH_VLAN) && f[14..16] == Put16(vlan % 0x1000) && f[16..18] == Put16(etherType);
    f
  }

  /** The VNI a VXLAN header can hold. */
  function HeaderVni(vni: u32): u32 {
    vni % 0x100_0000
  }

  /** `VXLAN`: the shift `vni << 8` on a uint32 drops the top octet. */
  function VxlanEncap(vni: u32, inner: Bytes): (b: Bytes)
    ensures |b| == 8 + |inner| && b[8..] == inner
    ensures b[0] == 0x08 && U32At(b, 4) / 0x100 == vni % 0x100_0000
  {
    var w := Put32(vni % 0x100_0000 * 0x100);
    var b := [0x08] + Zeros(3) + w + inner;
    assert b[4..8] == w;
    assert U32At(b, 4) == U32At(w, 0);
    b
  }

  // ---- the same builders as buffer writes ----

  method BuildIPv4(tos: byte, ttl: byte, proto: byte, src: IP, dst: IP, payload: Bytes) returns (p: Bytes)
    ensures p == IPv4(tos, ttl, proto, src, dst, payload)
  {
    var total := 20 + |payload|;
    var h := new byte[total](_ => 0);
    WriteFirst(h, [0x45, tos]);
    WriteAt(h, 2, Put16(total % TWO16));
    WriteAt(h, 4, [0, 0, 0x40, 0, ttl, proto]);
    Skipped(h, 10, 2);
    WriteAt(h, 12, Field4(src));
    WriteAt(h, 16, Field4(dst));
    ghost var blank := IPv4Header(tos, ttl, proto, src, dst, total);
    assert h[..20] == blank;
    var ck := ComputeChecksum(h[..20]);
    assert h[..][..20] == blank;
    Overwrite(h, 10, Put16(ck));
    assert h[..20] == h[..][..20] == Patched(blank, 10, Put16(ck));
    WriteAt(h, 20, payload);
    p := h[..];
  }

  method BuildIPv6(tc: byte, hopLimit: byte, nextHdr: byte, src: IP, dst: IP, payload: Bytes) returns (p: Bytes)
    ensures p == IPv6(tc, hopLimit, nextHdr, src, dst, payload)
  {
    var b := new byte[40 + |payload|](_ => 0);
    WriteFirst(b, [0x60 + tc / 16, tc % 16 * 16, 0, 0]);
    WriteAt(b, 4, Put16(|payload| % TWO16));
    WriteAt(b, 6, [nextHdr, hopLimit]);
    WriteAt(b, 8, To16(src));
    WriteAt(b, 24, To16(dst));
    WriteAt(b, 40, payload);
    p := b[..];
  }

  method ComputeL4Checksum(v6: bool, proto: byte, src: IP, dst: IP, segment: Bytes) returns (ck: u16)
    ensures ck == L4Checksum(v6, proto, src, dst, segment)
  {
    var head := if v6 then 40 else 12;
    var ph := new byte[head + |segment|](_ => 0);
    if v6 {
      WriteFirst(ph, To16(src));
      WriteAt(ph, 16, To16(dst));
      WriteAt(ph, 32, Put32(|segment| % TWO32));
      WriteAt(ph, 36, [0, 0, 0, proto]);
    } else {
      WriteFirst(ph, Field4(src));
      WriteAt(ph, 4, Field4(dst));
      WriteAt(ph, 8, [0, proto]);
      WriteAt(ph, 10, Put16(|segment| % TWO16));
    }
    WriteAt(ph, head, segment);
    assert ph[..] == ph[..head + |segment|];
    ck := ComputeChecksum(ph[..]);
  }

  method BuildIcmp(v6: bool, icmpType: byte, id: u16, seqno: u16, src: IP, dst: IP, payload: Bytes)
    returns (out: Bytes)
    ensures out == Icmp(v6, icmpType, id, seqno, src, dst, payload)
  {
    var b := new byte[8 + |payload|](_ => 0);
    WriteFirst(b, [icmpType, 0]);
    Skipped(b, 2, 2);
    WriteAt(b, 4, Put16(id));
    WriteAt(b, 6, Put16(seqno));
    WriteAt(b, 8, payload);
    assert b[..] == b[..8 + |payload|];
    var ck;
    if v6 {
      ck := ComputeL4Checksum(true, PROTO_ICMPV6, src, dst, b[..]);
    } else {
      ck := ComputeChecksum(b[..]);
    }
    Overwrite(b, 2, Put16(ck));
    out := b[..];
  }

  method BuildUdp(v6: bool, src: IP, dst: IP, sport: u16, dport: u16, payload: Bytes) returns (out: Bytes)
    ensures out == Udp(v6, src, dst, sport, dport, payload)
  {
    var b := new byte[8 + |payload|](_ => 0);
    WriteFirst(b, Put16(sport));
    WriteAt(b, 2, Put16(dport));
    WriteAt(b, 4, Put16((8 + |payload|) % TWO16));
    Skipped(b, 6, 2);
    WriteAt(b, 8, payload);
    assert b[..] == b[..8 + |payload|];
    var ck := ComputeL4Checksum(v6, PROTO_UDP, src, dst, b[..]);
    Overwrite(b, 6, Put16(ck));
    out := b[..];
  }

  method BuildTcp(v6: bool, src: IP, dst: IP, sport: u16, dport: u16, seqno: u32, ack: u32, flags: byte,
                  payload: Bytes) returns (out: Bytes)
    ensures out == Tcp(v6, src, dst, sport, dport, seqno, ack, flags, payload)
  {
    var b := new byte[20 + |payload|](_ => 0);
    WriteFirst(b, Put16(sport));
    WriteAt(b, 2, Put16(dport));
    WriteAt(b, 4, Put32(seqno));
    WriteAt(b, 8, Put32(ack));
    WriteAt(b, 12, [0x50, flags, 0xFF, 0xFF]);
    Skipped(b, 16, 4);
    WriteAt(b, 20, payload);
    assert b[..] == b[..20 + |payload|];
    var ck := ComputeL4Checksum(v6, PROTO_TCP, src, dst, b[..]);
    Overwrite(b, 16, Put16(ck));
    out := b[..];
  }

  method BuildEthernet(dst: Mac, src: Mac, etherType: u16, payload: Bytes) returns (f: Bytes)
    ensures f == Ethernet(dst, src, etherType, payload)
  {
    var b := new byte[14 + |payload|](_ => 0);
    WriteFirst(b, dst);
    WriteAt(b, 6, src);
    WriteAt(b, 12, Put16(etherType));
    WriteAt(b, 14, payload);
    f := b[..];
  }

  method BuildEthernetVLAN(dst: Mac, src: Mac, vlan: u16, etherType: u16, payload: Bytes) returns (f: Bytes)
    ensures f == EthernetVLAN(dst, src, vlan, etherType, payload)
  {
    var b := new byte[18 + |payload|](_ => 0);
    WriteFirst(b, dst);
    WriteAt(b, 6, src);
    WriteAt(b, 12, Put16(ETH_VLAN));
    WriteAt(b, 14, Put16(vlan % 0x1000));
    WriteAt(b, 16, Put16(etherType));
    WriteAt(b, 18, payload);
    f := b[..];
  }

  lemma ShiftVni(vni: u32)
    ensures vni as int * 0x100 % TWO32 == vni % 0x100_0000 * 0x100
  {
    assert vni as int * 0x100 == vni / 0x100_0000 * TWO32 + vni % 0x100_0000 * 0x100;
  }

  method BuildVxlan(vni: u32, inner: Bytes) returns (out: Bytes)
    ensures out == VxlanEncap(vni, inner)
  {
    var b := new byte[8 + |inner|](_ => 0);
    WriteFirst(b, [0x08]);
    Skipped(b, 1, 3);
    ShiftVni(vni);
    WriteAt(b, 4, Put32(vni as int * 0x100 % TWO32));
    WriteAt(b, 8, inner);
    out := b[..];
  }

  // ---- every built packet passes its own checksum ----

  lemma PseudoFilledVerifies(ph: Bytes, z: Bytes, off: nat)
    requires |ph| % 2 == 0 && off % 2 == 0 && off + 2 <= |z| && |ph| + |z| <= SAFE_LENGTH
    requires z[off] == 0 && z[off + 1] == 0
    ensures Checksum(ph + Patched(z, off, Put16(Checksum(ph + z)))) == 0
  {
    var w := Put16(Checksum(ph + z));
    assert ph + Patched(z, off, w) == Patched(ph + z, |ph| + off, w);
    FilledVerifies(ph + z, |ph| + off);
  }

  lemma IPv4Verifies(tos: byte, ttl: byte, proto: byte, src: IP, dst: IP, payload: Bytes)
    ensures Checksum(IPv4(tos, ttl, proto, src, dst, payload)[..20]) == 0
  {
    var h := IPv4Header(tos, ttl, proto, src, dst, 20 + |payload|);
    FilledVerifies(h, 10);
    assert IPv4(tos, ttl, proto, src, dst, payload)[..20] == Patched(h, 10, Put16(Checksum(h)));
  }

  lemma IcmpVerifies(v6: bool, icmpType: byte, id: u16, seqno: u16, src: IP, dst: IP, payload: Bytes)
    requires 48 + |payload| <= SAFE_LENGTH
    ensures IcmpChecksum(v6, src, dst, Icmp(v6, icmpType, id, seqno, src, dst, payload)) == 0
  {
    var z := IcmpBlank(icmpType, id, seqno, payload);
    if v6 {
      PseudoFilledVerifies(Pseudo(true, PROTO_ICMPV6, src, dst, |z|), z, 2);
    } else {
      FilledVerifies(z, 2);
    }
  }

  lemma UdpVerifies(v6: bool, src: IP, dst: IP, sport: u16, dport: u16, payload: Bytes)
    requires 48 + |payload| <= SAFE_LENGTH
    ensures L4Checksum(v6, PROTO_UDP, src, dst, Udp(v6, src, dst, sport, dport, payload)) == 0
  {
    var z := UdpBlank(sport, dport, payload);
    PseudoFilledVerifies(Pseudo(v6, PROTO_UDP, src, dst, |z|), z, 6);
  }

  lemma TcpVerifies(v6: bool, src: IP, dst: IP, sport: u16, dport: u16, seqno: u32, ack: u32, flags: byte,
                    payload: Bytes)
    requires 60 + |payload| <= SAFE_LENGTH
    ensures L4Checksum(v6, PROTO_TCP, src, dst, Tcp(v6, src, dst, sport, dport, seqno, ack, flags, payload)) == 0
  {
    var z := TcpBlank(sport, dport, seqno, ack, flags, payload);
    PseudoFilledVerifies(Pseudo(v6, PROTO_TCP, src, dst, |z|), z, 16);
  }

  /**
   * Exactly when a UDP datagram leaves with checksum field zero, which RFC 768 reserves for
   * "no checksum" and wants sent as all ones: the word sum is a multiple of 0xFFFF.
   */
  lemma UdpStoresZero(v6: bool, src: IP, dst: IP, sport: u16, dport: u16, payload: Bytes)
    requires 48 + |payload| <= SAFE_LENGTH
    ensures var z := UdpBlank(sport, dport, payload);
            U16At(Udp(v6, src, dst, sport, dport, payload), 6) == 0 <==>
            WordSum(Pseudo(v6, PROTO_UDP, src, dst, |z|) + z) % 0xFFFF == 0
  {
    var z := UdpBlank(sport, dport, payload);
    var ph := Pseudo(v6, PROTO_UDP, src, dst, |z|);
    ChecksumZero(ph + z);
    PositiveWord(ph + z, if v6 then 38 else 8);
    var ck := Put16(Checksum(ph + z));
    assert Udp(v6, src, dst, sport, dport, payload)[6..8] == ck;
  }

  lemma {:induction false} PositiveWord(b: Bytes, i: nat)
    requires i % 2 == 0 && i + 2 <= |b| && U16At(b, i) > 0
    ensures WordSum(b) > 0
  {
    if i > 0 {
      PositiveWord(b[2..], i - 2);
    }
  }

  lemma WitnessSum()
    ensures WordSum([10, 0, 0, 1, 10, 0, 0, 2, 0, 17, 0, 8] + [234, 96, 1, 123, 0, 8, 0, 0]) == 0xFFFF
  {
    WordSumConcat([10, 0, 0, 1, 10, 0, 0, 2, 0, 17, 0, 8], [234, 96, 1, 123, 0, 8, 0, 0]);
    assert WordSum([10, 0, 0, 1, 10, 0, 0, 2, 0, 17, 0, 8]) == 5148;
    assert WordSum([234, 96, 1, 123, 0, 8, 0, 0]) == 60387;
  }

  /** Such datagrams exist: an empty one between two concrete hosts. */
  lemma UdpStoresZeroWitness()
    ensures U16At(Udp(false, [10, 0, 0, 1], [10, 0, 0, 2], 60000, 379, []), 6) == 0
  {
    WitnessSum();
    UdpStoresZero(false, [10, 0, 0, 1], [10, 0, 0, 2], 60000, 379, []);
    assert Pseudo(false, PROTO_UDP, [10, 0, 0, 1], [10, 0, 0, 2], 8) == [10, 0, 0, 1, 10, 0, 0, 2, 0, 17, 0, 8];
    assert UdpBlank(60000, 379, []) == [234, 96, 1, 123, 0, 8, 0, 0];
  }
}
