/**
 * The wire formats octet by octet, with every offset and constant written out: what the builders put where, and
 * how headers with options and stacked tags are stepped over.
 */
module Layouts {
  import opened Wire
  import opened Address
  import opened Builders
  import opened Dissect
  import opened Tfmeta
  import opened Sightings
  import E = Echo

  // ---- what the checksums cover ----

  /** The pseudo-headers of RFC 768 and of section 8.1 of RFC 8200. */
  lemma PseudoOctets(v6: bool, proto: byte, src: IP, dst: IP, length: nat)
    ensures var ph := Pseudo(v6, proto, src, dst, length);
            if v6 then
              && |ph| == 40 && ph[0..16] == To16(src) && ph[16..32] == To16(dst)
              && ph[32] as int * 0x100_0000 + ph[33] as int * 0x1_0000 + ph[34] as int * 0x100 + ph[35] as int ==
                 length % 0x1_0000_0000
              && ph[36] == 0 && ph[37] == 0 && ph[38] == 0 && ph[39] == proto
            else
              && |ph| == 12 && ph[0..4] == Field4(src) && ph[4..8] == Field4(dst) && ph[8] == 0 && ph[9] == proto
              && ph[10] as int * 0x100 + ph[11] as int == length % 0x1_0000
  {
    if v6 {
      var w := Put32(length % TWO32);
      assert Pseudo(v6, proto, src, dst, length)[32..36] == w;
      assert U32At(w, 0) == length % TWO32;
    } else {
      var w := Put16(length % TWO16);
      assert Pseudo(v6, proto, src, dst, length)[10..12] == w;
    }
  }

  // ---- headers ----

  lemma IPv4Octets(tos: byte, ttl: byte, proto: byte, src: IP, dst: IP, payload: Bytes)
    ensures var p := IPv4(tos, ttl, proto, src, dst, payload);
            && |p| == 20 + |payload|
            && p[0] == 0x45 && p[1] == tos && p[2] as int * 0x100 + p[3] as int == (20 + |payload|) % 0x1_0000
            && p[4] == 0 && p[5] == 0 && p[6] == 0x40 && p[7] == 0 && p[8] == ttl && p[9] == proto
            && p[12..16] == Field4(src) && p[16..20] == Field4(dst) && p[20..] == payload
  {
    var h := IPv4Header(tos, ttl, proto, src, dst, 20 + |payload|);
    var w := Put16((20 + |payload|) % TWO16);
    assert h[2..4] == w;
    var p := IPv4(tos, ttl, proto, src, dst, payload);
    assert p[..10] == h[..10];
    assert forall i :: 0 <= i < 10 ==> p[i] == p[..10][i] && h[i] == h[..10][i];
  }

  lemma IPv6Octets(tc: byte, hopLimit: byte, nextHdr: byte, src: IP, dst: IP, payload: Bytes)
    ensures var p := IPv6(tc, hopLimit, nextHdr, src, dst, payload);
            && |p| == 40 + |payload|
            && p[0] as int * 0x100 + p[1] as int == 0x6000 + tc as int * 0x10 && p[2] == 0 && p[3] == 0
            && p[4] as int * 0x100 + p[5] as int == |payload| % 0x1_0000
            && p[6] == nextHdr && p[7] == hopLimit
            && p[8..24] == To16(src) && p[24..40] == To16(dst) && p[40..] == payload
  {
    var p := IPv6(tc, hopLimit, nextHdr, src, dst, payload);
    assert p[4..6] == Put16(|payload| % TWO16);
  }

  lemma IcmpOctets(v6: bool, icmpType: byte, id: u16, seqno: u16, src: IP, dst: IP, payload: Bytes)
    ensures var b := Icmp(v6, icmpType, id, seqno, src, dst, payload);
            && |b| == 8 + |payload| && b[0] == icmpType && b[1] == 0
            && b[4] as int * 0x100 + b[5] as int == id && b[6] as int * 0x100 + b[7] as int == seqno
            && b[8..] == payload
  {
    hide IcmpChecksum;
    var z := IcmpBlank(icmpType, id, seqno, payload);
    assert z[1] == 0;
    assert Icmp(v6, icmpType, id, seqno, src, dst, payload)[..2] == z[..2];
    assert Icmp(v6, icmpType, id, seqno, src, dst, payload)[1] == z[1];
  }

  lemma UdpOctets(v6: bool, src: IP, dst: IP, sport: u16, dport: u16, payload: Bytes)
    ensures var b := Udp(v6, src, dst, sport, dport, payload);
            && |b| == 8 + |payload|
            && b[0] as int * 0x100 + b[1] as int == sport && b[2] as int * 0x100 + b[3] as int == dport
            && b[4] as int * 0x100 + b[5] as int == (8 + |payload|) % 0x1_0000
            && b[8..] == payload
  {
    hide L4Checksum;
    var z, w := UdpBlank(sport, dport, payload), Put16((8 + |payload|) % TWO16);
    assert z[4..6] == w;
    assert z[4] == w[0] && z[5] == w[1];
    var b := Udp(v6, src, dst, sport, dport, payload);
    assert b[4] == z[4] && b[5] == z[5];
  }

  lemma TcpOctets(
      v6: bool, src: IP, dst: IP, sport: u16, dport: u16, seqno: u32, ack: u32, flags: byte, payload: Bytes)
    ensures var b := Tcp(v6, src, dst, sport, dport, seqno, ack, flags, payload);
            && |b| == 20 + |payload|
            && b[0] as int * 0x100 + b[1] as int == sport && b[2] as int * 0x100 + b[3] as int == dport
            && b[4] as int * 0x100_0000 + b[5] as int * 0x1_0000 + b[6] as int * 0x100 + b[7] as int == seqno
            && b[8] as int * 0x100_0000 + b[9] as int * 0x1_0000 + b[10] as int * 0x100 + b[11] as int == ack
            && b[12] == 0x50 && b[13] == flags && b[14] == 0xFF && b[15] == 0xFF && b[18] == 0 && b[19] == 0
            && b[20..] == payload
  {
    hide L4Checksum, TcpNumbers;
    var z := TcpBlank(sport, dport, seqno, ack, flags, payload);
    var b := Tcp(v6, src, dst, sport, dport, seqno, ack, flags, payload);
    assert b[14] == z[14] && b[15] == z[15] && b[18] == z[18] && b[19] == z[19];
    assert z[14] == z[..16][14] && z[15] == z[..16][15];
  }

  /** The control block: "TFLO", id, two flag octets, and the timestamp least significant octet first. */
  lemma BlockOctets(m: Meta)
    ensures var b := Encode(m);
            && |b| == 30 && b[0] == 0x54 && b[1] == 0x46 && b[2] == 0x4C && b[3] == 0x4F && b[4..20] == m.id
            && b[20] == (if m.deliver then 1 else 0) && b[21] == (if m.needResponse then 1 else 0)
            && b[22] as int + b[23] as int * 0x100 + b[24] as int * 0x1_0000 + b[25] as int * 0x100_0000
               + (b[26] as int + b[27] as int * 0x100 + b[28] as int * 0x1_0000 + b[29] as int * 0x100_0000)
                 * 0x1_0000_0000 == m.timestamp
  {
    var b := Encode(m);
    assert b[22..30] == PutLE64(m.timestamp);
    assert LE64At(b, 22) == LE64At(b[22..30], 0) == m.timestamp;
  }

  lemma VxlanOctets(vni: u32, inner: Bytes)
    ensures var b := VxlanEncap(vni, inner);
            && |b| == 8 + |inner| && b[0] == 8 && b[1] == 0 && b[2] == 0 && b[3] == 0
            && b[4] as int * 0x1_0000 + b[5] as int * 0x100 + b[6] as int == vni % 0x100_0000 && b[7] == 0
            && b[8..] == inner
  {
    var b := VxlanEncap(vni, inner);
    var w := Put32(vni % 0x100_0000 * 0x100);
    assert b[4..8] == w;
    assert U32At(w, 0) == vni % 0x100_0000 * 0x100;
  }

  // ---- what the client sends ----

  /** A probe's network header: DSCP 62, TTL 255, and the protocol and EtherType of its family. */
  lemma ProbeHeader(proto: byte, src: IP, dst: IP, l4: Bytes)
    ensures var p := E.ProbeL3(proto, TOS, src, dst, l4);
            if IsV6(dst) then
              && |p| == 40 + |l4| && p[0] == 0x6F && p[1] == 0x80 && p[6] == proto && p[7] == 255
              && EtherOf(true) == 0x86DD
            else
              && |p| == 20 + |l4| && p[0] == 0x45 && p[1] == 0xF8 && p[8] == 255 && p[9] == proto
              && EtherOf(false) == 0x0800
  {
    hide IPv4, IPv6;
    IPv4Octets(TOS, TTL_MAX, proto, src, dst, l4);
    IPv6Octets(TOS, TTL_MAX, proto, src, dst, l4);
  }

  /** An ICMP probe: protocol 1 or 58, an echo request with identifier 0x1234 and sequence number 1. */
  lemma IcmpProbeOctets(src: IP, dst: IP, payload: Bytes)
    ensures var p, off := E.IcmpL3(src, dst, payload), if IsV6(dst) then 40 else 20;
            && |p| == off + 8 + |payload| && p[off..][8..] == payload
            && (if IsV6(dst) then p[6] == 58 && p[off] == 128 else p[9] == 1 && p[off] == 8)
            && p[off + 1] == 0 && p[off + 4] == 0x12 && p[off + 5] == 0x34 && p[off + 6] == 0 && p[off + 7] == 1
  {
    hide IPv4, IPv6, Icmp;
    var v6 := IsV6(dst);
    var kind: byte := if v6 then 128 else 8;
    var l4 := Icmp(v6, kind, 0x1234, 1, src, dst, payload);
    IcmpOctets(v6, kind, 0x1234, 1, src, dst, payload);
    ProbeHeader(E.IcmpProto(v6), src, dst, l4);
    var p, off := E.IcmpL3(src, dst, payload), if v6 then 40 else 20;
    assert p[off..] == l4;
    assert forall i :: 0 <= i < 8 ==> p[off + i] == p[off..][i];
  }

  /** A UDP probe: protocol 17 and the ports given. */
  lemma UdpProbeOctets(src: IP, dst: IP, sport: u16, dport: u16, payload: Bytes)
    ensures var p, off := E.UdpL3(src, dst, sport, dport, payload), if IsV6(dst) then 40 else 20;
            && |p| == off + 8 + |payload| && p[off..][8..] == payload && p[if IsV6(dst) then 6 else 9] == 17
            && p[off] as int * 0x100 + p[off + 1] as int == sport
            && p[off + 2] as int * 0x100 + p[off + 3] as int == dport
  {
    hide IPv4, IPv6, Udp;
    var l4 := Udp(IsV6(dst), src, dst, sport, dport, payload);
    UdpOctets(IsV6(dst), src, dst, sport, dport, payload);
    ProbeHeader(PROTO_UDP, src, dst, l4);
    var p, off := E.UdpL3(src, dst, sport, dport, payload), if IsV6(dst) then 40 else 20;
    assert p[off..] == l4;
    assert forall i :: 0 <= i < 8 ==> p[off + i] == p[off..][i];
  }

  /** A VXLAN probe: an unmarked outer datagram to port 4789. */
  lemma VxlanProbeOctets(outerSrc: IP, outerDst: IP, sport: u16, vni: u32, innerSrc: IP, innerDst: IP, payload: Bytes)
    ensures var p := E.VxlanL3(outerSrc, outerDst, sport, vni, innerSrc, innerDst, payload);
            var off := if IsV6(outerDst) then 40 else 20;
            && |p| >= off + 16
            && (if IsV6(outerDst) then p[0] == 0x60 && p[1] == 0 && p[6] == 17 && p[7] == 255
                else p[0] == 0x45 && p[1] == 0 && p[8] == 255 && p[9] == 17)
            && p[off + 2] == 0x12 && p[off + 3] == 0xB5 && p[off + 8] == 8
            && |p| >= off + 30 && p[off + 16..off + 28] == [2, 0, 0, 0, 0, 1, 2, 0, 0, 0, 0, 1]
            && p[off + 28] as int * 0x100 + p[off + 29] as int == (if IsV6(innerDst) then 0x86DD else 0x0800)
  {
    hide IPv4, IPv6, Udp, VxlanEncap, Ethernet, E.IcmpL3;
    var v6 := IsV6(outerDst);
    var inner := Ethernet(E.DUMMY_MAC, E.DUMMY_MAC, EtherOf(IsV6(innerDst)), E.IcmpL3(innerSrc, innerDst, payload));
    var body := VxlanEncap(vni, inner);
    var l4 := Udp(v6, outerSrc, outerDst, sport, VXLAN_PORT, body);
    VxlanOctets(vni, inner);
    UdpOctets(v6, outerSrc, outerDst, sport, VXLAN_PORT, body);
    IPv4Octets(0, TTL_MAX, PROTO_UDP, outerSrc, outerDst, l4);
    IPv6Octets(0, TTL_MAX, PROTO_UDP, outerSrc, outerDst, l4);
    var p, off := E.VxlanL3(outerSrc, outerDst, sport, vni, innerSrc, innerDst, payload), if v6 then 40 else 20;
    assert p[off..] == l4;
    assert l4[8..][0] == l4[8];
    assert p[off + 16..] == l4[8..][8..] == inner;
    assert inner[0..12] == inner[0..6] + inner[6..12];
    assert p[off + 16..off + 28] == p[off + 16..][0..12];
    assert p[off + 28] == p[off + 16..][12] && p[off + 29] == p[off + 16..][13];
    assert forall i :: 0 <= i < 9 ==> p[off + i] == p[off..][i];
  }

  // ---- options ----

  /** An IPv4 header of 5 + k words: all parsers find layer 4 behind its options, or find it truncated. */
  lemma IPv4OptionsSkipped(l3: Bytes, k: nat)
    requires |l3| >= 20 && k <= 10 && l3[0] as int == 0x45 + k
    ensures ParseIp(0x0800, l3).Some? <==> |l3| >= 20 + 4 * k
    ensures |l3| >= 20 + 4 * k ==>
              ParseIp(0x0800, l3) == Some(Ip(false, l3[1], l3[9], l3[12..16], l3[16..20], l3[20 + 4 * k..]))
    ensures MarkL3(0x0800, l3).Some? <==>
            |l3| >= 20 + 4 * k && l3[1] as int / 4 == 62 && MarkL4(l3[20 + 4 * k..], l3[9]).Some?
    ensures MarkL3(0x0800, l3).Some? ==>
              && MarkL3(0x0800, l3).value.hop as int == 255 - l3[8] as int
              && Some(MarkL3(0x0800, l3).value.l4) == MarkL4(l3[20 + 4 * k..], l3[9])
  {
    hide MarkL4;
  }

  /** A header of fewer than five words is no packet to anybody. */
  lemma ShortIPv4Refused(l3: Bytes)
    requires |l3| >= 20 && l3[0] % 16 < 5
    ensures ParseIp(0x0800, l3).None? && MarkL3(0x0800, l3).None?
  {
  }

  /** A TCP header of 5 + k words, whatever the reserved bits: the control block is looked for behind its options. */
  lemma TcpOptionsSkipped(l4: Bytes, k: nat, low: nat)
    requires |l4| >= 20 && k <= 10 && low < 16 && l4[12] as int == 0x50 + 0x10 * k + low
    ensures PayloadOffset(6, l4) == if |l4| >= 20 + 4 * k then Some(20 + 4 * k) else None
    ensures MarkL4(l4, 6).Some? <==>
            |l4| >= 20 + 4 * k + 30 && l4[20 + 4 * k..20 + 4 * k + 4] == [0x54, 0x46, 0x4C, 0x4F]
    ensures MarkL4(l4, 6).Some? ==>
              var m, off := MarkL4(l4, 6).value, 20 + 4 * k;
              && m.proto == 6 && m.tcpFlags == l4[13]
              && m.sport as int == l4[0] as int * 0x100 + l4[1] as int
              && m.dport as int == l4[2] as int * 0x100 + l4[3] as int
              && m.id == l4[off + 4..off + 20] && m.deliver == l4[off + 20] && m.need == l4[off + 21]
  {
    var off := 20 + 4 * k;
    if |l4| >= off + 4 {
      var b := l4[off..off + 4];
      assert U32At(l4, off) == U32At(b, 0) && b[..4] == b;
      MagicOctets(b);
    }
  }

  lemma ShortTcpRefused(l4: Bytes)
    requires |l4| >= 20 && l4[12] / 16 < 5
    ensures PayloadOffset(6, l4).None? && MarkL4(l4, 6).None?
  {
  }

  // ---- stacked tags ----

  /** An 802.1Q or 802.1ad tag as it appears in front of an EtherType. */
  datatype Tag = Tag(kind: u16, tci: u16)

  predicate IsVlanTag(t: Tag) {
    t.kind == 0x8100 || t.kind == 0x88A8
  }

  /** Tags and the EtherType behind them. */
  function TagOctets(tags: seq<Tag>, etherType: u16): Bytes {
    if tags == [] then [etherType / 0x100, etherType % 0x100]
    else [tags[0].kind / 0x100, tags[0].kind % 0x100, tags[0].tci / 0x100, tags[0].tci % 0x100]
         + TagOctets(tags[1..], etherType)
  }

  function Tagged(dst: Mac, src: Mac, tags: seq<Tag>, etherType: u16, payload: Bytes): Bytes {
    dst + src + TagOctets(tags, etherType) + payload
  }

  /** The outermost VID that is not zero. */
  function FirstVid(tags: seq<Tag>): u16 {
    if tags == [] then 0
    else if tags[0].tci % 0x1000 != 0 then tags[0].tci % 0x1000
    else FirstVid(tags[1..])
  }

  lemma {:induction false} TagLength(tags: seq<Tag>, etherType: u16)
    ensures |TagOctets(tags, etherType)| == 2 + 4 * |tags|
  {
    if tags != [] {
      TagLength(tags[1..], etherType);
    }
  }

  /** What is left of a stack after `n` tags have been read: the type of the next one, or the EtherType. */
  function NextType(tags: seq<Tag>, etherType: u16, n: nat): u16 {
    if n < |tags| then tags[n].kind else etherType
  }

  function Fewer(tags: seq<Tag>, n: nat): nat {
    if n < |tags| then n else |tags|
  }

  /** The octets at `at` are the tags and the EtherType. */
  predicate HoldsTags(f: Bytes, at: nat, tags: seq<Tag>, etherType: u16) {
    at + 2 + 4 * |tags| <= |f| && f[at..at + 2 + 4 * |tags|] == TagOctets(tags, etherType)
  }

  lemma FirstTag(f: Bytes, at: nat, tags: seq<Tag>, etherType: u16)
    requires HoldsTags(f, at, tags, etherType)
    ensures U16At(f, at) == if tags == [] then etherType else tags[0].kind
    ensures tags != [] ==> U16At(f, at + 2) == tags[0].tci && HoldsTags(f, at + 4, tags[1..], etherType)
  {
    var t := TagOctets(tags, etherType);
    assert f[at] == t[0] && f[at + 1] == t[1];
    if tags != [] {
      assert f[at + 2] == t[2] && f[at + 3] == t[3];
      assert t[4..] == TagOctets(tags[1..], etherType);
      assert f[at + 4..at + 4 + 2 + 4 * (|tags| - 1)] == f[at..at + 2 + 4 * |tags|][4..];
    }
  }

  lemma {:induction false} TagsRead(f: Bytes, at: nat, tags: seq<Tag>, etherType: u16, vlan: u16, n: nat)
    requires HoldsTags(f, at, tags, etherType) && forall i :: 0 <= i < |tags| ==> IsVlanTag(tags[i])
    requires etherType != 0x8100 && etherType != 0x88A8
    ensures var k := Fewer(tags, n);
            Tags(f, at + 2, U16At(f, at), vlan, n) ==
            Some(L2(NextType(tags, etherType, n), if vlan != 0 then vlan else FirstVid(tags[..k]), at + 2 + 4 * k))
    decreases n
  {
    hide HoldsTags, TagOctets;
    assert at + 2 + 4 * |tags| <= |f| by { TagsInside(f, at, tags, etherType); }
    FirstTag(f, at, tags, etherType);
    if n > 0 && tags != [] {
      var vid := if vlan == 0 then tags[0].tci % 0x1000 else vlan;
      TagsRead(f, at + 4, tags[1..], etherType, vid, n - 1);
      var k := Fewer(tags, n);
      assert tags[..k][1..] == tags[1..][..k - 1] && tags[..k][0] == tags[0];
    }
  }

  lemma TagsInside(f: Bytes, at: nat, tags: seq<Tag>, etherType: u16)
    requires HoldsTags(f, at, tags, etherType)
    ensures at + 2 + 4 * |tags| <= |f|
  {
  }

  /**
   * Any stack of 802.1Q and 802.1ad tags: two are stepped over, the outermost non-zero VID of those is kept, and a
   * third stays where it is, its type taken for the EtherType.
   */
  lemma StackedTags(dst: Mac, src: Mac, tags: seq<Tag>, etherType: u16, payload: Bytes)
    requires forall i :: 0 <= i < |tags| ==> IsVlanTag(tags[i])
    requires etherType != 0x8100 && etherType != 0x88A8
    ensures var f, k := Tagged(dst, src, tags, etherType, payload), if |tags| > 2 then 2 else |tags|;
            && Strip(f) == Some(L2(if |tags| > 2 then tags[2].kind else etherType, FirstVid(tags[..k]), 14 + 4 * k))
            && (|tags| <= 2 ==> f[14 + 4 * |tags|..] == payload)
            && f[0..6] == dst && f[6..12] == src
  {
    hide Tags, TagOctets, FirstVid;
    var f := Tagged(dst, src, tags, etherType, payload);
    TagLength(tags, etherType);
    assert f[12..12 + 2 + 4 * |tags|] == TagOctets(tags, etherType);
    TagsRead(f, 12, tags, etherType, 0, 2);
  }
}
