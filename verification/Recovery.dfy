/** The classifier reads back everything the client put into a probe. */
module Recovery {
  import opened Wire
  import opened Address
  import opened Builders
  import opened Dissect
  import opened Tfmeta
  import opened Exchange
  import opened Sightings
  import Agreement
  import opened Replies

  /** A transport header and what the classifier should report of it. */
  datatype Sent =
    | SentIcmp(icmpType: byte, id: u16, number: u16)
    | SentUdp(sport: u16, dport: u16)
    | SentTcp(sport: u16, dport: u16, seqno: u32, ack: u32, flags: byte)

  function SentProto(v6: bool, s: Sent): byte {
    match s
    case SentIcmp(_, _, _) => if v6 then PROTO_ICMPV6 else PROTO_ICMP
    case SentUdp(_, _) => PROTO_UDP
    case SentTcp(_, _, _, _, _) => PROTO_TCP
  }

  function SentL4(v6: bool, src: IP, dst: IP, s: Sent, payload: Bytes): Bytes {
    match s
    case SentIcmp(t, id, n) => Icmp(v6, t, id, n, src, dst, payload)
    case SentUdp(sport, dport) => Udp(v6, src, dst, sport, dport, payload)
    case SentTcp(sport, dport, seqno, ack, flags) => Tcp(v6, src, dst, sport, dport, seqno, ack, flags, payload)
  }

  /** The mark of a probe carrying block `m`. */
  function SentMark(v6: bool, s: Sent, m: Meta): L4Mark {
    L4Mark(SentProto(v6, s),
           if s.SentIcmp? then 0 else s.sport, if s.SentIcmp? then 0 else s.dport,
           if s.SentTcp? then s.flags else 0, m.id, m.timestamp, Flag(m.deliver), Flag(m.needResponse))
  }

  /** `payload` starts with the wire form of `m`. */
  predicate Carries(payload: Bytes, m: Meta) {
    |payload| >= META_SIZE && payload[..META_SIZE] == Encode(m)
  }

  lemma MarkOfPayload(l4: Bytes, off: nat, payload: Bytes, m: Meta, proto: byte, sport: u16, dport: u16, flags: byte)
    requires off <= |l4| && l4[off..] == payload && Carries(payload, m)
    ensures MarkMeta(l4, off, proto, sport, dport, flags) ==
            Some(L4Mark(proto, sport, dport, flags, m.id, m.timestamp, Flag(m.deliver), Flag(m.needResponse)))
  {
    hide Encode;
    var b := Encode(m);
    EncodedFields(m);
    assert forall i :: 0 <= i < META_SIZE ==> l4[off + i] == payload[i] && payload[i] == b[i];
    assert U32At(l4, off) == U32At(b, 0);
    assert LE64At(l4, off + 22) == LE64At(b, 22);
    assert l4[off + 4..off + 20] == b[4..20];
  }

  lemma EncodedFields(m: Meta)
    ensures var b := Encode(m);
            && U32At(b, 0) == MAGIC && b[4..20] == m.id && LE64At(b, 22) == m.timestamp
            && b[20] == Flag(m.deliver) && b[21] == Flag(m.needResponse)
  {
    EncodeThenUnmarshal(m, []);
    assert Encode(m) + [] == Encode(m);
  }

  lemma SentL4Mark(v6: bool, src: IP, dst: IP, s: Sent, payload: Bytes, m: Meta)
    requires Carries(payload, m)
    ensures MarkL4(SentL4(v6, src, dst, s, payload), SentProto(v6, s)) == Some(SentMark(v6, s, m))
  {
    hide MarkMeta, Carries, IcmpBlank, UdpBlank, TcpBlank, TcpNumbers, L4Checksum, IcmpChecksum, Patched;
    var l4 := SentL4(v6, src, dst, s, payload);
    var proto := SentProto(v6, s);
    match s
    case SentIcmp(t, id, n) => MarkOfPayload(l4, 8, payload, m, proto, 0, 0, 0);
    case SentUdp(sport, dport) => MarkOfPayload(l4, 8, payload, m, proto, sport, dport, 0);
    case SentTcp(sport, dport, _, _, flags) => MarkOfPayload(l4, 20, payload, m, proto, sport, dport, flags);
  }

  /** A source or destination address as the record holds it. */
  function RecordAddr(v6: bool, ip: IP): Addr16 {
    if v6 then To16(ip) else Field4(ip) + Zeros(12)
  }

  function SentL3(v6: bool, ttl: byte, src: IP, dst: IP, s: Sent, payload: Bytes): Bytes {
    IpPacket(v6, TOS, ttl, SentProto(v6, s), src, dst, SentL4(v6, src, dst, s, payload))
  }

  lemma SentL4Direct(v6: bool, s: Sent, l4: Bytes)
    ensures Walk(l4, SentProto(v6, s), MAX_EXT) == Some(Transport(SentProto(v6, s), l4))
  {
  }

  /** The mark a probe leaves at layer 3. */
  function ProbeMark(v6: bool, ttl: byte, src: IP, dst: IP, s: Sent, m: Meta): Mark {
    Mark(if v6 then 6 else 4, RecordAddr(v6, src), RecordAddr(v6, dst), 255 - ttl, SentMark(v6, s, m))
  }

  lemma SentV4Mark(ttl: byte, src: IP, dst: IP, s: Sent, payload: Bytes, m: Meta)
    requires Carries(payload, m)
    ensures MarkIPv4(SentL3(false, ttl, src, dst, s, payload)) == Some(ProbeMark(false, ttl, src, dst, s, m))
  {
    hide SentL4, MarkL4, SentMark, Carries, IPv4, SentProto;
    SentL4Mark(false, src, dst, s, payload, m);
  }

  lemma SentV6Mark(ttl: byte, src: IP, dst: IP, s: Sent, payload: Bytes, m: Meta)
    requires Carries(payload, m)
    ensures MarkIPv6(SentL3(true, ttl, src, dst, s, payload)) == Some(ProbeMark(true, ttl, src, dst, s, m))
  {
    hide SentL4, MarkL4, SentMark, Carries, IPv6, Walk, SentProto;
    SentL4Mark(true, src, dst, s, payload, m);
    SentL4Direct(true, s, SentL4(true, src, dst, s, payload));
  }

  lemma SentL3Mark(v6: bool, ttl: byte, src: IP, dst: IP, s: Sent, payload: Bytes, m: Meta)
    requires Carries(payload, m)
    ensures MarkL3(EtherOf(v6), SentL3(v6, ttl, src, dst, s, payload)) == Some(ProbeMark(v6, ttl, src, dst, s, m))
  {
    hide SentL3, ProbeMark, MarkIPv4, MarkIPv6, Carries;
    if v6 {
      SentV6Mark(ttl, src, dst, s, payload, m);
    } else {
      SentV4Mark(ttl, src, dst, s, payload, m);
    }
  }

  /** The record of a probe: its addresses, ports, flags, run id and timestamp, and the hops behind it. */
  function ProbeRecord(
      v6: bool, ttl: byte, src: IP, dst: IP, s: Sent, m: Meta, ifaceType: byte, vni: u32, vlan: u16,
      ifindex: u32, direction: byte, action: byte, now: u64): Record
  {
    Record(m.timestamp, now, m.id, RecordAddr(v6, src), RecordAddr(v6, dst), vni, ifindex,
           if s.SentIcmp? then 0 else s.sport, if s.SentIcmp? then 0 else s.dport,
           vlan, if v6 then 6 else 4, 255 - ttl, direction, action,
           SentProto(v6, s), if s.SentTcp? then s.flags else 0, ifaceType)
  }

  lemma RecordOfProbe(
      v6: bool, ttl: byte, src: IP, dst: IP, s: Sent, m: Meta, ifaceType: byte, vni: u32, vlan: u16,
      ifindex: u32, direction: byte, action: byte, now: u64)
    ensures RecordOf(Sighting(ifaceType, vni, vlan, ProbeMark(v6, ttl, src, dst, s, m)),
                     ifindex, direction, action, now) ==
            ProbeRecord(v6, ttl, src, dst, s, m, ifaceType, vni, vlan, ifindex, direction, action, now)
  {
  }

  /** Whether a classifier intercepts a plain probe. */
  predicate ProbeIntercepted(env: Env, v6: bool, dst: IP, s: Sent, m: Meta) {
    && env.config.Some? && env.config.value.respond && (s.SentTcp? ==> env.config.value.tcpRespond)
    && m.needResponse && !m.deliver && RecordAddr(v6, dst) in env.localIps
  }

  /** The VNI a record ends up with: the frame's own, or else the device's, or else the packet's tunnel key. */
  function RecordVni(env: Env, vni: u32, p: Packet): u32 {
    if vni != 0 then vni
    else if p.ifindex in env.ifaceVni && env.ifaceVni[p.ifindex] != 0 then env.ifaceVni[p.ifindex]
    else if p.tunnelId.Some? then p.tunnelId.value
    else 0
  }

  /** The device is registered as a tunnel, or the packet carries a tunnel key. */
  predicate OnTunnel(env: Env, p: Packet) {
    p.ifindex in env.ifaceVni || (p.tunnelId.Some? && p.tunnelId.value != 0)
  }

  function RecordType(env: Env, p: Packet): byte {
    if OnTunnel(env, p) then 1 else 0
  }

  /** The VID a record ends up with: of the tag in the frame, or else of the tag the NIC stripped, or else none. */
  function RecordVid(vlan: u16, tci: Option<u16>): u16 {
    if vlan % 0x1000 != 0 then vlan % 0x1000 else if tci.Some? then tci.value % 0x1000 else 0
  }

  lemma StrippedOrInline(vlan: u16, p: Packet)
    ensures OrVlan(HeaderVid(vlan), SkbVlan(p)) == RecordVid(vlan, p.vlanTci)
  {
  }

  lemma PlainReport(env: Env, p: Packet, direction: byte, now: u64, l2: L2, k: Mark)
    requires env.config.Some? && env.config.value.mode != Vxlan
    requires Strip(p.frame) == Some(l2) && MarkL3(l2.etherType, p.frame[l2.off..]) == Some(k)
    ensures var s := Sighting(RecordType(env, p), RecordVni(env, 0, p), OrVlan(l2.vlan, SkbVlan(p)), k);
            Report(env, p, direction, now) ==
            Some(RecordOf(s, p.ifindex, direction, if Intercepts(env.config.value, env.localIps, s) then 1 else 0, now))
  {
    hide MarkL3, Strip, VxlanBody, Intercepts, SkbVlan;
    if VxlanBody(p.frame).Some? {
      Agreement.TunnelNotPlain(p.frame, SkbVlan(p));
    }
  }

  lemma InterceptsProbe(
      env: Env, v6: bool, ttl: byte, src: IP, dst: IP, s: Sent, m: Meta, ifaceType: byte, vni: u32, vlan: u16)
    requires env.config.Some?
    ensures Intercepts(env.config.value, env.localIps,
                       Sighting(ifaceType, vni, vlan, ProbeMark(v6, ttl, src, dst, s, m)))
            <==> ProbeIntercepted(env, v6, dst, s, m) && ifaceType != IFACE_VXLAN
  {
  }

  /** The VID a VLAN tag can hold. */
  function HeaderVid(vlan: u16): u16 {
    vlan % 0x1000
  }

  function ProbeFrame(
      dmac: Mac, smac: Mac, vlan: u16, v6: bool, ttl: byte, src: IP, dst: IP, s: Sent, payload: Bytes): Bytes
  {
    FrameL2(dmac, smac, vlan, EtherOf(v6), SentL3(v6, ttl, src, dst, s, payload))
  }

  /**
   * A plain probe, at any TTL, tagged inline, by the NIC or not at all, over either family and any transport, on
   * any device: the record holds everything the client put in, the VLAN modulo 2^12, and says whether the probe
   * was intercepted, which on a tunnel device it never is.
   */
  lemma PlainProbeRecord(
      env: Env, ifindex: u32, tci: Option<u16>, tunnelId: Option<u32>, direction: byte, now: u64,
      dmac: Mac, smac: Mac, vlan: u16, v6: bool, ttl: byte, src: IP, dst: IP, s: Sent, payload: Bytes, m: Meta)
    requires env.config.Some? && env.config.value.mode != Vxlan && Carries(payload, m)
    ensures var p := Packet(ProbeFrame(dmac, smac, vlan, v6, ttl, src, dst, s, payload), ifindex, tci, tunnelId);
            var action := if ProbeIntercepted(env, v6, dst, s, m) && !OnTunnel(env, p) then 1 else 0;
            Report(env, p, direction, now) ==
            Some(ProbeRecord(v6, ttl, src, dst, s, m, RecordType(env, p), RecordVni(env, 0, p), RecordVid(vlan, tci),
                             ifindex, direction, action, now))
  {
    hide SentL3, MarkL3, Strip, Carries, FrameL2, ProbeMark, ProbeRecord, Report, RecordOf, Intercepts,
      ProbeIntercepted, SkbVlan, RecordVni, OnTunnel, OrVlan, RecordVid;
    var l3 := SentL3(v6, ttl, src, dst, s, payload);
    var p := Packet(ProbeFrame(dmac, smac, vlan, v6, ttl, src, dst, s, payload), ifindex, tci, tunnelId);
    StripFrameL2(dmac, smac, vlan, EtherOf(v6), l3);
    SentL3Mark(v6, ttl, src, dst, s, payload, m);
    PlainReport(env, p, direction, now, Strip(p.frame).value, ProbeMark(v6, ttl, src, dst, s, m));
    var vid := RecordVid(vlan, tci);
    StrippedOrInline(vlan, p);
    InterceptsProbe(env, v6, ttl, src, dst, s, m, RecordType(env, p), RecordVni(env, 0, p), vid);
    RecordOfProbe(v6, ttl, src, dst, s, m, RecordType(env, p), RecordVni(env, 0, p), vid, ifindex, direction,
                  if ProbeIntercepted(env, v6, dst, s, m) && !OnTunnel(env, p) then 1 else 0, now);
  }

  lemma TunnelSighting(f: Bytes, body: Bytes, l2: L2, k: Mark)
    requires VxlanBody(f) == Some(body) && |body| >= 8
    requires Strip(body[8..]) == Some(l2) && MarkL3(l2.etherType, body[8..][l2.off..]) == Some(k)
    ensures VxlanSighting(f) == Some(Sighting(IFACE_VXLAN, U32At(body, 4) / 0x100, l2.vlan, k))
  {
    hide VxlanBody, Strip, MarkL3;
  }

  lemma TunnelReport(env: Env, p: Packet, direction: byte, now: u64, s: Sighting)
    requires env.config.Some? && env.config.value.mode != Regular && VxlanSighting(p.frame) == Some(s)
    requires s.ifaceType == IFACE_VXLAN
    ensures Report(env, p, direction, now) ==
            Some(RecordOf(s.(vni := RecordVni(env, s.vni, p)), p.ifindex, direction, 0, now))
  {
    hide VxlanSighting, RegularSighting;
  }

  /** The outer packet a VXLAN sender puts around an inner frame. */
  function TunnelFrame(dmac: Mac, smac: Mac, vlan: u16, v6: bool, from: IP, to: IP, sport: u16, body: Bytes): Bytes {
    FrameL2(dmac, smac, vlan, EtherOf(v6),
            IpPacket(v6, 0, TTL_MAX, PROTO_UDP, from, to, Udp(v6, from, to, sport, VXLAN_PORT, body)))
  }

  /**
   * A probe inside VXLAN: the same fields of the inner packet, and never a drop. The VNI is the header's modulo
   * 2^24, or when that is zero whatever the device or the packet supplies.
   */
  lemma TunnelProbeRecord(
      env: Env, ifindex: u32, tci: Option<u16>, tunnelId: Option<u32>, direction: byte, now: u64,
      dmac: Mac, smac: Mac, ovlan: u16, ov6: bool, from: IP, to: IP, oport: u16, vni: u32,
      idmac: Mac, ismac: Mac, vlan: u16, v6: bool, ttl: byte, src: IP, dst: IP, s: Sent, payload: Bytes, m: Meta)
    requires env.config.Some? && env.config.value.mode != Regular && Carries(payload, m)
    ensures var inner := ProbeFrame(idmac, ismac, vlan, v6, ttl, src, dst, s, payload);
            var f := TunnelFrame(dmac, smac, ovlan, ov6, from, to, oport, VxlanEncap(vni, inner));
            var p := Packet(f, ifindex, tci, tunnelId);
            Report(env, p, direction, now) ==
            Some(ProbeRecord(v6, ttl, src, dst, s, m, 1, RecordVni(env, HeaderVni(vni), p), HeaderVid(vlan),
                             ifindex, direction, 0, now))
  {
    hide SentL3, MarkL3, Strip, VxlanBody, VxlanSighting, Report, Carries, FrameL2, IpPacket, Udp, VxlanEncap,
      ProbeMark, ProbeRecord, RecordOf, RecordVni;
    var l3 := SentL3(v6, ttl, src, dst, s, payload);
    var inner := FrameL2(idmac, ismac, vlan, EtherOf(v6), l3);
    var body := VxlanEncap(vni, inner);
    StripFrameL2(idmac, ismac, vlan, EtherOf(v6), l3);
    SentL3Mark(v6, ttl, src, dst, s, payload, m);
    TunnelParses(dmac, smac, ovlan, ov6, from, to, oport, body);
    var f := TunnelFrame(dmac, smac, ovlan, ov6, from, to, oport, body);
    TunnelSighting(f, body, Strip(inner).value, ProbeMark(v6, ttl, src, dst, s, m));
    var p := Packet(f, ifindex, tci, tunnelId);
    TunnelReport(env, p, direction, now, VxlanSighting(f).value);
    RecordOfProbe(v6, ttl, src, dst, s, m, 1, RecordVni(env, HeaderVni(vni), p), HeaderVid(vlan), ifindex,
                  direction, 0, now);
  }

  // ---- replies on the way back ----

  function SentOf(v6: bool, r: L4Reply): Sent {
    match r
    case Echo(id, number, _) => SentIcmp(if v6 then ECHO_REPLY6 else ECHO_REPLY, id, number)
    case Datagram(sport, dport, _) => SentUdp(sport, dport)
    case Segment(sport, dport, seqno, ack, flags, _) => SentTcp(sport, dport, seqno, ack, flags)
  }

  lemma EncodedIsSent(q: Ip, r: L4Reply)
    ensures EncodeL3(q, r) == SentL3(q.v6, TTL_MAX, q.dst, q.src, SentOf(q.v6, r), r.payload)
  {
  }

  lemma EchoCarries(a: Agent, payload: Bytes)
    requires Gate(a, payload)
    ensures var m := Unmarshal(payload).value.(deliver := false, needResponse := false);
            Carries(EchoOf(a, payload), m)
  {
    hide Verify, Sanitized;
    SanitizedIsAuthentic(a.hmac, a.key, payload);
    var e := EchoOf(a, payload);
    var b := e[..META_SIZE];
    assert b[..4] == e[..4] && b[4..20] == e[4..20];
    BlockUnmarshals(e);
    UnmarshalThenEncode(b);
  }

  lemma BlockUnmarshals(e: Bytes)
    requires |e| >= META_SIZE && Unmarshal(e).Some?
    ensures Unmarshal(e[..META_SIZE]) == Unmarshal(e)
  {
    var b := e[..META_SIZE];
    assert U32At(b, 0) == U32At(e, 0) && LE64At(b, 22) == LE64At(e, 22) && b[4..20] == e[4..20];
  }

  /**
   * Every reply is itself observable on the return path: hop zero, the run id and timestamp of its request,
   * addresses turned round, and no flag that would have it intercepted.
   */
  lemma ReplyIsObservable(a: Agent, flows: Flows, t: L3)
    requires ReplyTo(a, flows, Some(t)).sent.Some?
    ensures Admitted(a, t.etherType, t.bytes).Some?
    ensures var q := Admitted(a, t.etherType, t.bytes).value;
            var k := MarkL3(t.etherType, ReplyTo(a, flows, Some(t)).sent.value);
            var m := Unmarshal(PayloadOf(q));
            && k.Some? && m.Some?
            && k.value.hop == 0 && k.value.l4.id == m.value.id && k.value.l4.timestamp == m.value.timestamp
            && k.value.l4.need == 0 && k.value.l4.deliver == 0
            && k.value.src == RecordAddr(q.v6, q.dst) && k.value.dst == RecordAddr(q.v6, q.src)
  {
    hide PlanL4, EncodeL3, ParseIp, Gate, EchoOf, PayloadOf, SentL3, MarkL3, Carries, RecordAddr, Marked;
    var q := Admitted(a, t.etherType, t.bytes).value;
    var r := PlanL4(a, flows, q).reply.value;
    ReplyShape(a, flows, q);
    FamilyOf(t.etherType, t.bytes);
    EncodedIsSent(q, r);
    EchoCarries(a, PayloadOf(q));
    GateDecodes(a, PayloadOf(q));
    var m := Unmarshal(PayloadOf(q)).value.(deliver := false, needResponse := false);
    SentL3Mark(q.v6, TTL_MAX, q.dst, q.src, SentOf(q.v6, r), r.payload, m);
  }

  lemma GateDecodes(a: Agent, payload: Bytes)
    requires Gate(a, payload)
    ensures Unmarshal(payload).Some?
  {
  }
}
