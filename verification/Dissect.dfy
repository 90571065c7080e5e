/**
 * What a frame says at layers 2 and 3. The responder and the sniffer hold the same IP parsers
 * as private copies; the three layer-2 loops of the repository are in their own modules and are
 * each proved to compute `Strip`.
 */
module Dissect {
  import opened Wire
  import opened Address
  import opened Builders

  // ---- layer 2 ----

  /** EtherType, outermost non-zero VID among the tags read, and where layer 3 starts. */
  datatype L2 = L2(etherType: u16, vlan: u16, off: nat)

  predicate IsTag(etherType: u16) {
    etherType == ETH_VLAN || etherType == ETH_QINQ
  }

  /** Read at most `n` tags at `off`. */
  function Tags(frame: Bytes, off: nat, etherType: u16, vlan: u16, n: nat): (r: Option<L2>)
    requires off <= |frame|
    ensures r.Some? ==> off <= r.value.off <= |frame|
    decreases n
  {
    if n == 0 || !IsTag(etherType) then Some(L2(etherType, vlan, off))
    else if |frame| < off + 4 then None
    else Tags(frame, off + 4, U16At(frame, off + 2), if vlan == 0 then U16At(frame, off) % 0x1000 else vlan, n - 1)
  }

  /** Ethernet and up to two VLAN tags; None exactly on a truncated frame. */
  function Strip(frame: Bytes): (r: Option<L2>)
    ensures r.Some? ==> 14 <= r.value.off <= |frame|
  {
    if |frame| < 14 then None else Tags(frame, 14, U16At(frame, 12), 0, 2)
  }

  /** `frameL2`: a tag is written only for a non-zero VID. */
  function FrameL2(dst: Mac, src: Mac, vlan: u16, etherType: u16, payload: Bytes): Bytes {
    if vlan != 0 then EthernetVLAN(dst, src, vlan, etherType, payload)
    else Ethernet(dst, src, etherType, payload)
  }

  lemma StripUntagged(dst: Mac, src: Mac, etherType: u16, payload: Bytes)
    requires !IsTag(etherType)
    ensures Strip(Ethernet(dst, src, etherType, payload)) == Some(L2(etherType, 0, 14))
  {
    hide Ethernet;
  }

  /** A tag is read back as its VID modulo 2^12, even when that is zero. */
  lemma StripTagged(dst: Mac, src: Mac, vlan: u16, etherType: u16, payload: Bytes)
    requires !IsTag(etherType)
    ensures Strip(EthernetVLAN(dst, src, vlan, etherType, payload)) == Some(L2(etherType, vlan % 0x1000, 18))
  {
    hide EthernetVLAN;
    var f := EthernetVLAN(dst, src, vlan, etherType, payload);
    assert Strip(f) == Tags(f, 18, etherType, vlan % 0x1000, 1);
  }

  /** Stripping a built frame recovers its payload, its EtherType and its VID modulo 2^12. */
  lemma StripFrameL2(dst: Mac, src: Mac, vlan: u16, etherType: u16, payload: Bytes)
    requires !IsTag(etherType)
    ensures var f := FrameL2(dst, src, vlan, etherType, payload);
            && Strip(f) == Some(L2(etherType, vlan % 0x1000, if vlan != 0 then 18 else 14))
            && f[Strip(f).value.off..] == payload
            && f[0..6] == dst && f[6..12] == src
  {
    hide Strip, Ethernet, EthernetVLAN;
    StripUntagged(dst, src, etherType, payload);
    StripTagged(dst, src, vlan, etherType, payload);
  }

  // ---- layer 3 ----

  datatype Ip = Ip(v6: bool, tos: byte, proto: byte, src: IP, dst: IP, l4: Bytes)

  /** `parseIPv4`/`ipv4`: options are skipped, the version nibble is not looked at. */
  function ParseIPv4(l3: Bytes): Option<Ip> {
    if |l3| < 20 then None
    else
      var ihl := l3[0] % 16 * 4;
      if ihl < 20 || ihl > |l3| then None
      else Some(Ip(false, l3[1], l3[9], l3[12..16], l3[16..20], l3[ihl..]))
  }

  /** `parseIPv6`/`ipv6`: the fixed header only. */
  function ParseIPv6(l3: Bytes): Option<Ip> {
    if |l3| < 40 then None
    else Some(Ip(true, l3[0] % 16 * 16 + l3[1] / 16, l3[6], l3[8..24], l3[24..40], l3[40..]))
  }

  function ParseIp(etherType: u16, l3: Bytes): Option<Ip> {
    if etherType == ETH_IPV4 then ParseIPv4(l3)
    else if etherType == ETH_IPV6 then ParseIPv6(l3)
    else None
  }

  /** `outerUDP`. */
  function OuterUdp(etherType: u16, l3: Bytes): Option<Ip> {
    var p := ParseIp(etherType, l3);
    if p.Some? && p.value.proto == PROTO_UDP then p else None
  }

  /** The frame is UDP to the VXLAN port over either family, judged by ports alone. */
  predicate ToVxlanPort(etherType: u16, l3: Bytes) {
    var u := OuterUdp(etherType, l3);
    u.Some? && |u.value.l4| >= 8 && U16At(u.value.l4, 2) == VXLAN_PORT
  }

  function EtherOf(v6: bool): u16 {
    if v6 then ETH_IPV6 else ETH_IPV4
  }

  function IpPacket(v6: bool, tos: byte, ttl: byte, proto: byte, src: IP, dst: IP, payload: Bytes): (p: Bytes)
    ensures |p| == (if v6 then 40 else 20) + |payload|
  {
    if v6 then IPv6(tos, ttl, proto, src, dst, payload) else IPv4(tos, ttl, proto, src, dst, payload)
  }

  /** The octets an address occupies in a header of the given family. */
  function AddrField(v6: bool, ip: IP): IP {
    if v6 then To16(ip) else Field4(ip)
  }

  /** Parsing a built packet recovers every field. */
  lemma ParseIpPacket(v6: bool, tos: byte, ttl: byte, proto: byte, src: IP, dst: IP, payload: Bytes)
    ensures ParseIp(EtherOf(v6), IpPacket(v6, tos, ttl, proto, src, dst, payload)) ==
            Some(Ip(v6, tos, proto, AddrField(v6, src), AddrField(v6, dst), payload))
  {
  }

  // ---- transport payload, as both Go parsers find it ----

  /** Where the payload after an 8-octet ICMP or UDP header, or a TCP header with options, starts. */
  function PayloadOffset(proto: byte, l4: Bytes): (r: Option<nat>)
    ensures r.Some? ==> 8 <= r.value <= |l4|
    ensures r.Some? && proto == PROTO_TCP ==> 20 <= r.value <= |l4|
  {
    if proto == PROTO_ICMP || proto == PROTO_ICMPV6 || proto == PROTO_UDP then
      if |l4| < 8 then None else Some(8)
    else if proto == PROTO_TCP then
      if |l4| < 20 then None
      else
        var doff := l4[12] / 16 * 4;
        if doff < 20 || doff > |l4| then None else Some(doff)
    else None
  }
}
