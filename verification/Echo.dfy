/** The client's ICMP, UDP and VXLAN probes, and what comes back from a responder. */
module Echo {
  import opened Wire
  import opened Address
  import opened Builders
  import opened Dissect
  import opened Tfmeta
  import opened Replies
  import opened Exchange
  import opened Sniffer
  import Sightings
  import R = Responder

  // ---- probes (client/main.go) ----

  /** `sendL2`: tagged when --vlan is positive; the kernel's own framing is the untagged case. */
  function ClientFrame(dst: Mac, src: Mac, vlan: int, v6: bool, l3: Bytes): Bytes {
    if vlan > 0 then EthernetVLAN(dst, src, vlan % TWO16, EtherOf(v6), l3) else Ethernet(dst, src, EtherOf(v6), l3)
  }

  /** The family of a probe is the family of its destination. */
  function ProbeL3(proto: byte, tos: byte, src: IP, dst: IP, l4: Bytes): Bytes {
    IpPacket(IsV6(dst), tos, TTL_MAX, proto, src, dst, l4)
  }

  function IcmpProto(v6: bool): byte { if v6 then PROTO_ICMPV6 else PROTO_ICMP }

  /** `icmpL3` with the constants `runICMP` and `runVXLAN` pass. */
  function IcmpL3(src: IP, dst: IP, payload: Bytes): Bytes {
    var v6 := IsV6(dst);
    ProbeL3(IcmpProto(v6), TOS, src, dst,
            Icmp(v6, if v6 then ECHO_REQUEST6 else ECHO_REQUEST, 0x1234, 1, src, dst, payload))
  }

  /** `udpL3`. */
  function UdpL3(src: IP, dst: IP, sport: u16, dport: u16, payload: Bytes): Bytes {
    ProbeL3(PROTO_UDP, TOS, src, dst, Udp(IsV6(dst), src, dst, sport, dport, payload))
  }

  const DUMMY_MAC: Mac := [0x02, 0, 0, 0, 0, 0x01]

  /** The outer packet `runVXLAN` sends. */
  function VxlanL3(outerSrc: IP, outerDst: IP, sport: u16, vni: u32, innerSrc: IP, innerDst: IP,
                   payload: Bytes): Bytes {
    var inner := Ethernet(DUMMY_MAC, DUMMY_MAC, EtherOf(IsV6(innerDst)), IcmpL3(innerSrc, innerDst, payload));
    ProbeL3(PROTO_UDP, 0, outerSrc, outerDst,
            Udp(IsV6(outerDst), outerSrc, outerDst, sport, VXLAN_PORT, VxlanEncap(vni, inner)))
  }

  predicate IsEchoReply(c: Capture) {
    (c.proto == PROTO_ICMP && c.icmpType == ECHO_REPLY) || (c.proto == PROTO_ICMPV6 && c.icmpType == ECHO_REPLY6)
  }

  predicate IsUdpReply(c: Capture, sport: u16) {
    c.proto == PROTO_UDP && c.dstPort == sport
  }

  // The tests `waitReply` is given.

  function AcceptEcho(): Capture -> bool {
    c => IsEchoReply(c)
  }

  function AcceptUdp(sport: u16): Capture -> bool {
    c => IsUdpReply(c, sport)
  }

  function AcceptVxlan(vni: u32): Capture -> bool {
    (c: Capture) => c.vni == vni && IsEchoReply(c)
  }

  /** What reaches the client's sniffer: its own frame, then the responder's if there is one. */
  function Arrivals(f: Bytes, o: Outcome): seq<Bytes> {
    [f] + if o.sent.None? then [] else [o.sent.value]
  }

  lemma FirstOfTwo(f: Bytes, o: Outcome, id: RunId, accept: Capture -> bool)
    ensures FirstMatch(Arrivals(f, o), id, accept) ==
            if Matches(f, id, accept) then Captured(f)
            else if o.sent.Some? && Matches(o.sent.value, id, accept) then Captured(o.sent.value)
            else None
  {
    hide Matches, Captured;
    var s := Arrivals(f, o);
    if !Matches(f, id, accept) {
      FirstMatchAt(s, id, accept, 1);
      if o.sent.Some? && !Matches(o.sent.value, id, accept) {
        FirstMatchAt(s, id, accept, 2);
      }
    }
  }

  /** The responder owns the destination and the run asks it for an answer. */
  predicate Served(a: Agent, dst: IP, m: Meta) {
    ResponderKey(dst) in a.local && m.needResponse && !m.deliver
  }

  /** The control block a reply to `m` carries. */
  function Cleared(m: Meta): Meta {
    m.(deliver := false, needResponse := false)
  }

  // ---- a probe at the responder ----

  /** The client's frame: to the given MAC from its own, tagged with the VID modulo 2^12 when there is one. */
  lemma ClientFrameL3(dst: Mac, src: Mac, vlan: int, v6: bool, l3: Bytes)
    ensures PlainL3(ClientFrame(dst, src, vlan, v6, l3)) == Some(L3(EtherOf(v6), l3))
    ensures var f := ClientFrame(dst, src, vlan, v6, l3);
            && |f| >= 14 && f[0..6] == dst && f[6..12] == src
            && Strip(f).Some? && Strip(f).value.vlan as int == if vlan > 0 then vlan % 0x1000 else 0
  {
    hide Strip, Ethernet, EthernetVLAN;
    StripUntagged(dst, src, EtherOf(v6), l3);
    if vlan > 0 {
      StripTagged(dst, src, vlan % TWO16, EtherOf(v6), l3);
    }
  }

  /** A local destination stays local in the octets of its own family. */
  lemma FieldIsLocal(a: Agent, dst: IP)
    requires ResponderKey(dst) in a.local
    ensures ResponderKey(AddrField(IsV6(dst), dst)) in a.local
    ensures To16(AddrField(IsV6(dst), dst)) == To16(dst)
  {
    MappedIffV4(dst);
  }

  /** The probe as the responder parses it. */
  function Arrived(proto: byte, src: IP, dst: IP, l4: Bytes): Ip {
    Ip(IsV6(dst), TOS, proto, AddrField(IsV6(dst), src), AddrField(IsV6(dst), dst), l4)
  }

  lemma ProbeAdmitted(a: Agent, proto: byte, src: IP, dst: IP, l4: Bytes)
    requires ResponderKey(dst) in a.local
    ensures Admitted(a, EtherOf(IsV6(dst)), ProbeL3(proto, TOS, src, dst, l4)) == Some(Arrived(proto, src, dst, l4))
  {
    hide ParseIp, IpPacket;
    ParseIpPacket(IsV6(dst), TOS, TTL_MAX, proto, src, dst, l4);
    FieldIsLocal(a, dst);
    assert Marked(TOS);
  }

  /** A signed control block that asks for an answer passes the gate of a responder with the same key. */
  lemma SignedPasses(a: Agent, m: Meta, rest: Bytes)
    requires m.needResponse && !m.deliver
    ensures Gate(a, Signed(a.hmac, m, a.key) + rest)
    ensures Unmarshal(EchoOf(a, Signed(a.hmac, m, a.key) + rest)) == Some(Cleared(m))
  {
    hide Signed, Verify, Unmarshal, Sanitized;
    SignedIsAuthentic(a.hmac, m, a.key, rest);
    SanitizedIsAuthentic(a.hmac, a.key, Signed(a.hmac, m, a.key) + rest);
  }

  /** The reply the responder plans for an ICMP or UDP probe, and the packet it becomes. */
  lemma ProbeReply(a: Agent, flows: Flows, proto: byte, src: IP, dst: IP, l4: Bytes, m: Meta)
    requires Served(a, dst, m)
    requires proto == PROTO_UDP || proto == IcmpProto(IsV6(dst))
    requires |l4| >= 8 && l4[8..] == Signed(a.hmac, m, a.key)
    ensures var q, echo := Arrived(proto, src, dst, l4), EchoOf(a, l4[8..]);
            var r := if proto == PROTO_UDP then Datagram(U16At(l4, 2), U16At(l4, 0), echo)
                     else Replies.Echo(U16At(l4, 4), U16At(l4, 6), echo);
            && Unmarshal(echo) == Some(Cleared(m))
            && ReplyL3(a, flows, EtherOf(IsV6(dst)), ProbeL3(proto, TOS, src, dst, l4)) ==
               Outcome(flows, Some(EncodeL3(q, r)))
  {
    hide Admitted, ProbeL3, Gate, EncodeL3, EchoOf, Unmarshal, Signed;
    ProbeAdmitted(a, proto, src, dst, l4);
    assert l4[8..] == Signed(a.hmac, m, a.key) + [];
    SignedPasses(a, m, []);
  }

  /** A probe to somebody else's address, or one that asks for no answer or for delivery, draws nothing. */
  lemma ProbeIgnored(a: Agent, flows: Flows, proto: byte, src: IP, dst: IP, l4: Bytes, m: Meta)
    requires !Served(a, dst, m)
    requires proto == PROTO_UDP || proto == IcmpProto(IsV6(dst))
    requires |l4| >= 8 && l4[8..] == Signed(a.hmac, m, a.key)
    ensures ReplyL3(a, flows, EtherOf(IsV6(dst)), ProbeL3(proto, TOS, src, dst, l4)) == Outcome(flows, None)
  {
    hide ParseIp, IpPacket, Signed, EncodeL3, EchoOf, Unmarshal, Verify;
    ParseIpPacket(IsV6(dst), TOS, TTL_MAX, proto, src, dst, l4);
    SignedIsAuthentic(a.hmac, m, a.key, []);
    assert l4[8..] == Signed(a.hmac, m, a.key) + [];
    SameLocalKey(dst);
  }

  lemma SameLocalKey(dst: IP)
    ensures ResponderKey(AddrField(IsV6(dst), dst)) == ResponderKey(dst)
  {
    MappedIffV4(dst);
  }

  // ---- the client's own probe ----

  /** A probe's packet, decoded. */
  lemma CaptureProbe(vni: u32, proto: byte, src: IP, dst: IP, l4: Bytes, m: Meta)
    requires proto == PROTO_UDP || proto == IcmpProto(IsV6(dst))
    requires |l4| >= 8 && Unmarshal(l4[8..]) == Some(m)
    ensures CaptureL3(vni, EtherOf(IsV6(dst)), ProbeL3(proto, TOS, src, dst, l4)) ==
            Some(Capture(proto, if proto == PROTO_UDP then 0 else l4[0],
                         if proto == PROTO_UDP then U16At(l4, 0) else 0,
                         if proto == PROTO_UDP then U16At(l4, 2) else 0,
                         0, 0, vni, To16(AddrField(IsV6(dst), src)), l4[8..], m))
  {
    hide ParseIp, IpPacket, Unmarshal;
    ParseIpPacket(IsV6(dst), TOS, TTL_MAX, proto, src, dst, l4);
    assert Marked(TOS);
  }

  lemma SignedDecodes(a: Agent, m: Meta)
    ensures Unmarshal(Signed(a.hmac, m, a.key)) == Some(m)
  {
    hide Signed, Unmarshal, Verify;
    SignedIsAuthentic(a.hmac, m, a.key, []);
    assert Signed(a.hmac, m, a.key) + [] == Signed(a.hmac, m, a.key);
  }

  lemma PlainCapture(f: Bytes)
    requires PlainL3(f).Some? && !ToVxlanPort(PlainL3(f).value.etherType, PlainL3(f).value.bytes)
    ensures Captured(f) == CaptureL3(0, PlainL3(f).value.etherType, PlainL3(f).value.bytes)
  {
    hide ToVxlanPort, Strip, CaptureL3;
  }

  // ---- ICMP ----

  function IcmpProbe(a: Agent, dmac: Mac, smac: Mac, vlan: int, src: IP, dst: IP, m: Meta): Bytes {
    ClientFrame(dmac, smac, vlan, IsV6(dst), IcmpL3(src, dst, Signed(a.hmac, m, a.key)))
  }

  function RequestType(v6: bool): byte { if v6 then ECHO_REQUEST6 else ECHO_REQUEST }

  function ReplyType(v6: bool): byte { if v6 then ECHO_REPLY6 else ECHO_REPLY }

  /** The echo reply of the run, as the client captures it: from the probed address, flags cleared, signed again. */
  function IcmpReply(a: Agent, vni: u32, dst: IP, m: Meta): Capture {
    Capture(IcmpProto(IsV6(dst)), ReplyType(IsV6(dst)), 0, 0, 0, 0, vni, To16(dst),
            EchoOf(a, Signed(a.hmac, m, a.key)), Cleared(m))
  }

  /** The client's own request, as its sniffer sees it. */
  function IcmpOwn(a: Agent, vni: u32, src: IP, dst: IP, m: Meta): Capture {
    Capture(IcmpProto(IsV6(dst)), RequestType(IsV6(dst)), 0, 0, 0, 0, vni, To16(AddrField(IsV6(dst), src)),
            Signed(a.hmac, m, a.key), m)
  }

  function IcmpL4(a: Agent, src: IP, dst: IP, m: Meta): Bytes {
    Icmp(IsV6(dst), RequestType(IsV6(dst)), 0x1234, 1, src, dst, Signed(a.hmac, m, a.key))
  }

  lemma IcmpL4Fields(a: Agent, src: IP, dst: IP, m: Meta)
    ensures var l4 := IcmpL4(a, src, dst, m);
            && |l4| >= 8 && l4[0] == RequestType(IsV6(dst)) && l4[8..] == Signed(a.hmac, m, a.key)
            && IcmpL3(src, dst, Signed(a.hmac, m, a.key)) == ProbeL3(IcmpProto(IsV6(dst)), TOS, src, dst, l4)
  {
    hide Signed, ProbeL3, IcmpBlank, IcmpChecksum, Patched;
  }

  lemma OwnIcmpCapture(a: Agent, vni: u32, src: IP, dst: IP, m: Meta)
    ensures CaptureL3(vni, EtherOf(IsV6(dst)), IcmpL3(src, dst, Signed(a.hmac, m, a.key))) ==
            Some(IcmpOwn(a, vni, src, dst, m))
  {
    hide CaptureL3, Signed, Unmarshal, ProbeL3, IcmpL3, IcmpL4;
    IcmpL4Fields(a, src, dst, m);
    SignedDecodes(a, m);
    CaptureProbe(vni, IcmpProto(IsV6(dst)), src, dst, IcmpL4(a, src, dst, m), m);
  }

  /** The answer to an ICMP or ICMPv6 probe, tagged or not, wherever it was received on the plain path. */
  lemma IcmpAnswered(a: Agent, flows: Flows, aux: u16, dmac: Mac, smac: Mac, vlan: int, src: IP, dst: IP, m: Meta)
    requires a.mode != Vxlan && Served(a, dst, m)
    ensures var o := Handle(a, flows, IcmpProbe(a, dmac, smac, vlan, src, dst, m), aux);
            && o.flows == flows && o.sent.Some?
            && Captured(o.sent.value) == Some(IcmpReply(a, 0, dst, m))
  {
    hide ClientFrame, ProbeL3, EncodeL3, CaptureL3, Captured, PlainL3, Signed, ReplyL3, HandleRegular, HandleVxlan,
      EchoOf, Icmp, ToVxlanPort, Unmarshal, Strip;
    var v6 := IsV6(dst);
    var l4 := IcmpL4(a, src, dst, m);
    IcmpL4Fields(a, src, dst, m);
    var l3 := IcmpL3(src, dst, Signed(a.hmac, m, a.key));
    var f := IcmpProbe(a, dmac, smac, vlan, src, dst, m);
    ClientFrameL3(dmac, smac, vlan, v6, l3);
    NotUdpProbe(IcmpProto(v6), src, dst, l4);
    PlainHandle(a, flows, f, aux);
    ProbeReply(a, flows, IcmpProto(v6), src, dst, l4, m);
    RegularSends(a, flows, f, aux);
    CapturePlainReply(a, flows, f, aux);
    var q := Arrived(IcmpProto(v6), src, dst, l4);
    var r := Replies.Echo(U16At(l4, 4), U16At(l4, 6), EchoOf(a, l4[8..]));
    CaptureReply(0, q, r);
    ReplyPort(q, r);
    FieldIsLocal(a, dst);
    RepeatedField(v6, dst);
  }

  /** Nobody answers: not this responder's address or kind of run, or a responder that reads VXLAN only. */
  lemma IcmpUnanswered(a: Agent, flows: Flows, aux: u16, dmac: Mac, smac: Mac, vlan: int, src: IP, dst: IP, m: Meta)
    requires a.mode == Vxlan || !Served(a, dst, m)
    ensures Handle(a, flows, IcmpProbe(a, dmac, smac, vlan, src, dst, m), aux) == Outcome(flows, None)
  {
    hide ClientFrame, ProbeL3, PlainL3, Signed, ReplyL3, Handle, Icmp, ToVxlanPort, Strip, Sightings.VxlanBody, Served;
    var v6, l4 := IsV6(dst), IcmpL4(a, src, dst, m);
    IcmpL4Fields(a, src, dst, m);
    var f := IcmpProbe(a, dmac, smac, vlan, src, dst, m);
    ClientFrameL3(dmac, smac, vlan, v6, IcmpL3(src, dst, Signed(a.hmac, m, a.key)));
    NotUdpProbe(IcmpProto(v6), src, dst, l4);
    NoTunnelThere(f);
    HandleIsReplyTo(a, flows, f, aux);
    if !Served(a, dst, m) {
      ProbeIgnored(a, flows, IcmpProto(v6), src, dst, l4, m);
    }
  }

  lemma NoTunnelThere(f: Bytes)
    requires PlainL3(f).Some? && !ToVxlanPort(PlainL3(f).value.etherType, PlainL3(f).value.bytes)
    ensures Sightings.VxlanBody(f).None? && !IsVxlanFrame(f)
  {
    hide ToVxlanPort, Strip;
  }

  lemma IcmpTests(a: Agent, vni: u32, src: IP, dst: IP, m: Meta)
    ensures !IsEchoReply(IcmpOwn(a, vni, src, dst, m)) && IsEchoReply(IcmpReply(a, vni, dst, m))
  {
    hide Signed, EchoOf;
  }

  /**
   * `runICMP`, tagged or not, over either family: the client never takes its own request for the reply, and
   * reports the responder's reply exactly when the responder owns the address, reads plain frames and is asked.
   */
  lemma IcmpEcho(a: Agent, flows: Flows, aux: u16, dmac: Mac, smac: Mac, vlan: int, src: IP, dst: IP, m: Meta)
    ensures var f := IcmpProbe(a, dmac, smac, vlan, src, dst, m);
            var o := Handle(a, flows, f, aux);
            && o.flows == flows
            && FirstMatch(Arrivals(f, o), m.id, AcceptEcho()) ==
               if a.mode != Vxlan && Served(a, dst, m) then Some(IcmpReply(a, 0, dst, m)) else None
  {
    hide ClientFrame, Handle, Captured, Signed, EchoOf, IcmpL3, PlainL3, CaptureL3, IsEchoReply, ToVxlanPort, Served,
      FirstMatch;
    var f := IcmpProbe(a, dmac, smac, vlan, src, dst, m);
    IcmpOwnSeen(a, dmac, smac, vlan, src, dst, m);
    IcmpTests(a, 0, src, dst, m);
    FirstOfTwo(f, Handle(a, flows, f, aux), m.id, AcceptEcho());
    if a.mode != Vxlan && Served(a, dst, m) {
      IcmpAnswered(a, flows, aux, dmac, smac, vlan, src, dst, m);
    } else {
      IcmpUnanswered(a, flows, aux, dmac, smac, vlan, src, dst, m);
    }
  }

  lemma IcmpOwnSeen(a: Agent, dmac: Mac, smac: Mac, vlan: int, src: IP, dst: IP, m: Meta)
    ensures Captured(IcmpProbe(a, dmac, smac, vlan, src, dst, m)) == Some(IcmpOwn(a, 0, src, dst, m))
  {
    hide ClientFrame, Captured, Signed, ProbeL3, PlainL3, CaptureL3, ToVxlanPort, Icmp;
    var l3 := IcmpL3(src, dst, Signed(a.hmac, m, a.key));
    ClientFrameL3(dmac, smac, vlan, IsV6(dst), l3);
    IcmpL4Fields(a, src, dst, m);
    NotUdpProbe(IcmpProto(IsV6(dst)), src, dst, IcmpL4(a, src, dst, m));
    PlainCapture(IcmpProbe(a, dmac, smac, vlan, src, dst, m));
    OwnIcmpCapture(a, 0, src, dst, m);
  }

  lemma RepeatedField(v6: bool, ip: IP)
    ensures AddrField(v6, AddrField(v6, ip)) == AddrField(v6, ip)
  {
  }

  lemma NotUdpProbe(proto: byte, src: IP, dst: IP, l4: Bytes)
    requires proto != PROTO_UDP
    ensures !ToVxlanPort(EtherOf(IsV6(dst)), ProbeL3(proto, TOS, src, dst, l4))
  {
    hide IpPacket, ParseIp;
    ParseIpPacket(IsV6(dst), TOS, TTL_MAX, proto, src, dst, l4);
  }

  /** A frame that is not UDP to the VXLAN port takes the plain path in REGULAR and AUTO alike. */
  lemma PlainHandle(a: Agent, flows: Flows, f: Bytes, aux: u16)
    requires a.mode == Regular ||
             (a.mode == Auto && PlainL3(f).Some? && !ToVxlanPort(PlainL3(f).value.etherType, PlainL3(f).value.bytes))
    ensures Handle(a, flows, f, aux) == HandleRegular(a, flows, f, aux)
  {
    hide HandleRegular, HandleVxlan, ToVxlanPort, Strip;
  }

  lemma RegularSends(a: Agent, flows: Flows, f: Bytes, aux: u16)
    requires PlainL3(f).Some?
    ensures var o := ReplyTo(a, flows, PlainL3(f));
            && HandleRegular(a, flows, f, aux).flows == o.flows
            && (HandleRegular(a, flows, f, aux).sent.Some? <==> o.sent.Some?)
  {
    hide ReplyL3, Strip;
  }

  /** Only a datagram whose destination port is 4789 looks like VXLAN. */
  lemma ReplyPort(q: Ip, r: L4Reply)
    ensures ToVxlanPort(EtherOf(q.v6), EncodeL3(q, r)) <==> r.Datagram? && r.dport == VXLAN_PORT
  {
    hide ParseIp, EncodeL3, EncodeL4;
    ParseReply(q, r);
    EncodedL4(q.v6, q.dst, q.src, r);
  }

  // ---- UDP ----

  function UdpProbe(a: Agent, dmac: Mac, smac: Mac, vlan: int, src: IP, dst: IP, sport: u16, dport: u16,
                    m: Meta): Bytes {
    ClientFrame(dmac, smac, vlan, IsV6(dst), UdpL3(src, dst, sport, dport, Signed(a.hmac, m, a.key)))
  }

  /** The reply datagram, as the client captures it: ports and addresses swapped, flags cleared, signed again. */
  function UdpReply(a: Agent, dst: IP, sport: u16, dport: u16, m: Meta): Capture {
    Capture(PROTO_UDP, 0, dport, sport, 0, 0, 0, To16(dst), EchoOf(a, Signed(a.hmac, m, a.key)), Cleared(m))
  }

  /** The client's own datagram, as its sniffer sees it. */
  function UdpOwn(a: Agent, src: IP, dst: IP, sport: u16, dport: u16, m: Meta): Capture {
    Capture(PROTO_UDP, 0, sport, dport, 0, 0, 0, To16(AddrField(IsV6(dst), src)), Signed(a.hmac, m, a.key), m)
  }

  /** The outcome of a UDP probe on the plain path. */
  lemma UdpPlainPath(
      a: Agent, flows: Flows, aux: u16, dmac: Mac, smac: Mac, vlan: int, src: IP, dst: IP, sport: u16, dport: u16,
      m: Meta)
    requires Served(a, dst, m)
    ensures var o := HandleRegular(a, flows, UdpProbe(a, dmac, smac, vlan, src, dst, sport, dport, m), aux);
            && o.flows == flows && o.sent.Some?
            && Captured(o.sent.value) ==
               if sport == VXLAN_PORT then None else Some(UdpReply(a, dst, sport, dport, m))
  {
    hide ClientFrame, ProbeL3, EncodeL3, CaptureL3, Captured, PlainL3, Signed, ReplyL3, HandleRegular, HandleVxlan,
      EchoOf, Udp, ToVxlanPort, Unmarshal, Strip;
    var v6 := IsV6(dst);
    var l4 := Udp(v6, src, dst, sport, dport, Signed(a.hmac, m, a.key));
    var l3 := ProbeL3(PROTO_UDP, TOS, src, dst, l4);
    var f := ClientFrame(dmac, smac, vlan, v6, l3);
    ClientFrameL3(dmac, smac, vlan, v6, l3);
    ProbeReply(a, flows, PROTO_UDP, src, dst, l4, m);
    RegularSends(a, flows, f, aux);
    CapturePlainReply(a, flows, f, aux);
    var q := Arrived(PROTO_UDP, src, dst, l4);
    var r := Datagram(dport, sport, EchoOf(a, l4[8..]));
    CaptureReply(0, q, r);
    ReplyPort(q, r);
    FieldIsLocal(a, dst);
    RepeatedField(v6, dst);
  }

  /** A UDP probe to port 4789 reaches nobody on the tunnel path: its payload is no VXLAN header. */
  lemma UdpTunnelPath(
      a: Agent, flows: Flows, aux: u16, dmac: Mac, smac: Mac, vlan: int, src: IP, dst: IP, sport: u16, dport: u16,
      m: Meta)
    ensures var f := UdpProbe(a, dmac, smac, vlan, src, dst, sport, dport, m);
            && (IsVxlanFrame(f) <==> dport == VXLAN_PORT)
            && HandleVxlan(a, flows, f, aux) == Outcome(flows, None)
  {
    hide ClientFrame, IpPacket, PlainL3, Signed, ReplyL3, Udp, ParseIp, Unmarshal, HasVni, Reencapsulate;
    var payload := Signed(a.hmac, m, a.key);
    var l4 := Udp(IsV6(dst), src, dst, sport, dport, payload);
    var l3 := ProbeL3(PROTO_UDP, TOS, src, dst, l4);
    ClientFrameL3(dmac, smac, vlan, IsV6(dst), l3);
    ParseIpPacket(IsV6(dst), TOS, TTL_MAX, PROTO_UDP, src, dst, l4);
    SignedStart(a, m);
    PathOf(UdpProbe(a, dmac, smac, vlan, src, dst, sport, dport, m));
  }

  lemma SignedStart(a: Agent, m: Meta)
    ensures |Signed(a.hmac, m, a.key)| >= META_SIZE && !HasVni(Signed(a.hmac, m, a.key)[0])
  {
  }

  lemma PathOf(f: Bytes)
    requires PlainL3(f).Some?
    ensures Strip(f).Some? && PlainL3(f).value == L3(Strip(f).value.etherType, f[Strip(f).value.off..])
  {
    hide Strip;
  }

  /** A UDP probe that is not for this responder draws nothing on the plain path. */
  lemma UdpUnanswered(
      a: Agent, flows: Flows, aux: u16, dmac: Mac, smac: Mac, vlan: int, src: IP, dst: IP, sport: u16, dport: u16,
      m: Meta)
    requires !Served(a, dst, m)
    ensures HandleRegular(a, flows, UdpProbe(a, dmac, smac, vlan, src, dst, sport, dport, m), aux) ==
            Outcome(flows, None)
  {
    hide ClientFrame, ProbeL3, PlainL3, Signed, ReplyL3, HandleRegular, Udp, Served;
    var l4 := Udp(IsV6(dst), src, dst, sport, dport, Signed(a.hmac, m, a.key));
    ClientFrameL3(dmac, smac, vlan, IsV6(dst), ProbeL3(PROTO_UDP, TOS, src, dst, l4));
    ProbeIgnored(a, flows, PROTO_UDP, src, dst, l4, m);
    RegularSends(a, flows, UdpProbe(a, dmac, smac, vlan, src, dst, sport, dport, m), aux);
  }

  lemma UdpOwnSeen(
      a: Agent, dmac: Mac, smac: Mac, vlan: int, src: IP, dst: IP, sport: u16, dport: u16, m: Meta)
    ensures Captured(UdpProbe(a, dmac, smac, vlan, src, dst, sport, dport, m)) ==
            if dport == VXLAN_PORT then None else Some(UdpOwn(a, src, dst, sport, dport, m))
  {
    hide ClientFrame, Signed, IpPacket, PlainL3, CaptureL3, Udp, Unmarshal, ParseIp, HasVni;
    var v6, payload := IsV6(dst), Signed(a.hmac, m, a.key);
    var l4 := Udp(v6, src, dst, sport, dport, payload);
    var l3 := ProbeL3(PROTO_UDP, TOS, src, dst, l4);
    var f := UdpProbe(a, dmac, smac, vlan, src, dst, sport, dport, m);
    ClientFrameL3(dmac, smac, vlan, v6, l3);
    ParseIpPacket(v6, TOS, TTL_MAX, PROTO_UDP, src, dst, l4);
    PathOf(f);
    SignedStart(a, m);
    if dport != VXLAN_PORT {
      SignedDecodes(a, m);
      CaptureProbe(0, PROTO_UDP, src, dst, l4, m);
      PlainCapture(f);
    }
  }

  /** The client tells its own datagram from a reply by the port alone. */
  lemma OwnUdpMatches(
      a: Agent, dmac: Mac, smac: Mac, vlan: int, src: IP, dst: IP, sport: u16, dport: u16, m: Meta)
    ensures Matches(UdpProbe(a, dmac, smac, vlan, src, dst, sport, dport, m), m.id, AcceptUdp(sport)) <==>
            sport == dport && dport != VXLAN_PORT
  {
    hide Captured, UdpProbe, Signed;
    UdpOwnSeen(a, dmac, smac, vlan, src, dst, sport, dport, m);
  }

  /** Whether the responder answers a UDP probe with a datagram the client can read. */
  predicate UdpAnswered(a: Agent, dst: IP, sport: u16, dport: u16, m: Meta) {
    && Served(a, dst, m) && a.mode != Vxlan
    && sport != VXLAN_PORT && (a.mode == Auto ==> dport != VXLAN_PORT)
  }

  /**
   * `runUDP`: with equal ports other than 4789 the client takes its own datagram for the reply, whether or not anybody
   * answers. Otherwise it reports the responder's reply exactly when the responder owns the address and is asked, its
   * own port is not 4789 and, unless the responder runs in REGULAR mode, neither is the port it probed.
   */
  lemma UdpEcho(
      a: Agent, flows: Flows, aux: u16, dmac: Mac, smac: Mac, vlan: int, src: IP, dst: IP, sport: u16, dport: u16,
      m: Meta)
    ensures var f := UdpProbe(a, dmac, smac, vlan, src, dst, sport, dport, m);
            var o := Handle(a, flows, f, aux);
            && o.flows == flows
            && FirstMatch(Arrivals(f, o), m.id, AcceptUdp(sport)) ==
               if sport == dport && dport != VXLAN_PORT then Some(UdpOwn(a, src, dst, sport, dport, m))
               else if UdpAnswered(a, dst, sport, dport, m) then Some(UdpReply(a, dst, sport, dport, m))
               else None
  {
    hide UdpProbe, HandleRegular, HandleVxlan, Captured, IsVxlanFrame, Signed, EchoOf, Served, FirstMatch, Arrivals;
    var f := UdpProbe(a, dmac, smac, vlan, src, dst, sport, dport, m);
    UdpOwnSeen(a, dmac, smac, vlan, src, dst, sport, dport, m);
    OwnUdpMatches(a, dmac, smac, vlan, src, dst, sport, dport, m);
    UdpTunnelPath(a, flows, aux, dmac, smac, vlan, src, dst, sport, dport, m);
    FirstOfTwo(f, Handle(a, flows, f, aux), m.id, AcceptUdp(sport));
    if Served(a, dst, m) {
      UdpPlainPath(a, flows, aux, dmac, smac, vlan, src, dst, sport, dport, m);
    } else {
      UdpUnanswered(a, flows, aux, dmac, smac, vlan, src, dst, sport, dport, m);
    }
  }

  // ---- ICMP inside VXLAN ----

  lemma InnerFrameL3(et: bool, l3: Bytes)
    ensures PlainL3(Ethernet(DUMMY_MAC, DUMMY_MAC, EtherOf(et), l3)) == Some(L3(EtherOf(et), l3))
  {
    hide Strip, Ethernet;
    StripUntagged(DUMMY_MAC, DUMMY_MAC, EtherOf(et), l3);
  }

  /** The frame of a VXLAN probe, as the responder takes it apart. */
  lemma VxlanProbeParses(dmac: Mac, smac: Mac, vlan: int, outerSrc: IP, outerDst: IP, sport: u16, body: Bytes)
    requires |body| >= 8 && body[0] == 8
    ensures var v6 := IsV6(outerDst);
            var udp := Udp(v6, outerSrc, outerDst, sport, VXLAN_PORT, body);
            var f := ClientFrame(dmac, smac, vlan, v6, ProbeL3(PROTO_UDP, 0, outerSrc, outerDst, udp));
            IsVxlanFrame(f) && Sightings.VxlanBody(f) == Some(body)
  {
    hide ClientFrame, IpPacket, PlainL3, Udp, ParseIp;
    var v6 := IsV6(outerDst);
    var udp := Udp(v6, outerSrc, outerDst, sport, VXLAN_PORT, body);
    var l3 := ProbeL3(PROTO_UDP, 0, outerSrc, outerDst, udp);
    ClientFrameL3(dmac, smac, vlan, v6, l3);
    ParseIpPacket(v6, 0, TTL_MAX, PROTO_UDP, outerSrc, outerDst, udp);
    PathOf(ClientFrame(dmac, smac, vlan, v6, l3));
  }

  lemma TunnelSends(a: Agent, flows: Flows, f: Bytes, aux: u16)
    requires IsVxlanFrame(f) && Sightings.VxlanBody(f).Some?
    ensures var o := ReplyTo(a, flows, PlainL3(Sightings.VxlanBody(f).value[8..]));
            && HandleVxlan(a, flows, f, aux).flows == o.flows
            && (HandleVxlan(a, flows, f, aux).sent.Some? <==> o.sent.Some?)
  {
    hide ReplyL3, Strip, OuterUdp, Reencapsulate, HasVni;
  }

  function VxlanProbe(
      a: Agent, dmac: Mac, smac: Mac, vlan: int, outerSrc: IP, outerDst: IP, sport: u16, vni: u32, innerSrc: IP,
      innerDst: IP, m: Meta): Bytes
  {
    ClientFrame(dmac, smac, vlan, IsV6(outerDst),
                VxlanL3(outerSrc, outerDst, sport, vni, innerSrc, innerDst, Signed(a.hmac, m, a.key)))
  }

  /** The body of the client's VXLAN frame and the packet inside. */
  lemma VxlanProbeInside(
      a: Agent, dmac: Mac, smac: Mac, vlan: int, outerSrc: IP, outerDst: IP, sport: u16, vni: u32, innerSrc: IP,
      innerDst: IP, m: Meta)
    ensures var f := VxlanProbe(a, dmac, smac, vlan, outerSrc, outerDst, sport, vni, innerSrc, innerDst, m);
            var l3 := IcmpL3(innerSrc, innerDst, Signed(a.hmac, m, a.key));
            && IsVxlanFrame(f) && Sightings.VxlanBody(f).Some? && VniOf(f) == HeaderVni(vni)
            && PlainL3(Sightings.VxlanBody(f).value[8..]) == Some(L3(EtherOf(IsV6(innerDst)), l3))
  {
    hide ClientFrame, ProbeL3, PlainL3, Signed, IcmpL3, Udp, Ethernet, VxlanEncap, IsVxlanFrame, Sightings.VxlanBody;
    var v6 := IsV6(innerDst);
    var l3 := IcmpL3(innerSrc, innerDst, Signed(a.hmac, m, a.key));
    var inner := Ethernet(DUMMY_MAC, DUMMY_MAC, EtherOf(v6), l3);
    VxlanProbeParses(dmac, smac, vlan, outerSrc, outerDst, sport, VxlanEncap(vni, inner));
    InnerFrameL3(v6, l3);
  }

  /** The answer to a VXLAN probe over either underlay: its VNI is the probe's modulo 2^24. */
  lemma VxlanAnswered(
      a: Agent, flows: Flows, aux: u16, dmac: Mac, smac: Mac, vlan: int,
      outerSrc: IP, outerDst: IP, sport: u16, vni: u32, innerSrc: IP, innerDst: IP, m: Meta)
    requires a.mode != Regular && Served(a, innerDst, m)
    ensures var f := VxlanProbe(a, dmac, smac, vlan, outerSrc, outerDst, sport, vni, innerSrc, innerDst, m);
            var o := Handle(a, flows, f, aux);
            && o.flows == flows && o.sent.Some?
            && Captured(o.sent.value) == Some(IcmpReply(a, HeaderVni(vni), innerDst, m))
  {
    hide VxlanProbe, ProbeL3, EncodeL3, CaptureL3, Captured, PlainL3, Signed, ReplyL3, HandleRegular, HandleVxlan,
      EchoOf, Icmp, Unmarshal, IsVxlanFrame, Sightings.VxlanBody, VniOf, IcmpL3;
    var v6, l4 := IsV6(innerDst), IcmpL4(a, innerSrc, innerDst, m);
    IcmpL4Fields(a, innerSrc, innerDst, m);
    var f := VxlanProbe(a, dmac, smac, vlan, outerSrc, outerDst, sport, vni, innerSrc, innerDst, m);
    VxlanProbeInside(a, dmac, smac, vlan, outerSrc, outerDst, sport, vni, innerSrc, innerDst, m);
    ProbeReply(a, flows, IcmpProto(v6), innerSrc, innerDst, l4, m);
    TunnelSends(a, flows, f, aux);
    CaptureTunnelReply(a, flows, f, aux);
    var q := Arrived(IcmpProto(v6), innerSrc, innerDst, l4);
    var r := Replies.Echo(U16At(l4, 4), U16At(l4, 6), EchoOf(a, l4[8..]));
    CaptureReply(VniOf(f), q, r);
    FieldIsLocal(a, innerDst);
    RepeatedField(v6, innerDst);
  }

  lemma VxlanUnanswered(
      a: Agent, flows: Flows, aux: u16, dmac: Mac, smac: Mac, vlan: int,
      outerSrc: IP, outerDst: IP, sport: u16, vni: u32, innerSrc: IP, innerDst: IP, m: Meta)
    requires a.mode == Regular || !Served(a, innerDst, m)
    ensures var f := VxlanProbe(a, dmac, smac, vlan, outerSrc, outerDst, sport, vni, innerSrc, innerDst, m);
            Handle(a, flows, f, aux) == Outcome(flows, None)
  {
    hide VxlanProbe, ProbeL3, PlainL3, Signed, ReplyL3, Handle, Icmp, IsVxlanFrame, Sightings.VxlanBody, VniOf, IcmpL3,
      Served;
    var v6, l4 := IsV6(innerDst), IcmpL4(a, innerSrc, innerDst, m);
    IcmpL4Fields(a, innerSrc, innerDst, m);
    var f := VxlanProbe(a, dmac, smac, vlan, outerSrc, outerDst, sport, vni, innerSrc, innerDst, m);
    VxlanProbeInside(a, dmac, smac, vlan, outerSrc, outerDst, sport, vni, innerSrc, innerDst, m);
    HandleIsReplyTo(a, flows, f, aux);
    if a.mode == Regular {
      OuterUnmarked(a, flows, dmac, smac, vlan, outerSrc, outerDst, sport, vni, innerSrc, innerDst, m);
    } else {
      ProbeIgnored(a, flows, IcmpProto(v6), innerSrc, innerDst, l4, m);
    }
  }

  /** The outer packet carries no mark, so the plain path passes over it. */
  lemma OuterUnmarked(
      a: Agent, flows: Flows, dmac: Mac, smac: Mac, vlan: int,
      outerSrc: IP, outerDst: IP, sport: u16, vni: u32, innerSrc: IP, innerDst: IP, m: Meta)
    ensures var f := VxlanProbe(a, dmac, smac, vlan, outerSrc, outerDst, sport, vni, innerSrc, innerDst, m);
            ReplyTo(a, flows, PlainL3(f)) == Outcome(flows, None)
  {
    hide ClientFrame, IpPacket, ParseIp, PlainL3, Signed, IcmpL3, Udp, Ethernet, VxlanEncap, EncodeL3;
    var l3 := VxlanL3(outerSrc, outerDst, sport, vni, innerSrc, innerDst, Signed(a.hmac, m, a.key));
    ClientFrameL3(dmac, smac, vlan, IsV6(outerDst), l3);
    var inner := Ethernet(DUMMY_MAC, DUMMY_MAC, EtherOf(IsV6(innerDst)),
                          IcmpL3(innerSrc, innerDst, Signed(a.hmac, m, a.key)));
    ParseIpPacket(IsV6(outerDst), 0, TTL_MAX, PROTO_UDP, outerSrc, outerDst,
                  Udp(IsV6(outerDst), outerSrc, outerDst, sport, VXLAN_PORT, VxlanEncap(vni, inner)));
  }

  lemma VxlanOwnSeen(
      a: Agent, dmac: Mac, smac: Mac, vlan: int, outerSrc: IP, outerDst: IP, sport: u16, vni: u32, innerSrc: IP,
      innerDst: IP, m: Meta)
    ensures Captured(VxlanProbe(a, dmac, smac, vlan, outerSrc, outerDst, sport, vni, innerSrc, innerDst, m)) ==
            Some(IcmpOwn(a, HeaderVni(vni), innerSrc, innerDst, m))
  {
    hide VxlanProbe, PlainL3, Signed, CaptureL3, IsVxlanFrame, Sightings.VxlanBody, VniOf, IcmpL3;
    VxlanProbeInside(a, dmac, smac, vlan, outerSrc, outerDst, sport, vni, innerSrc, innerDst, m);
    OwnIcmpCapture(a, HeaderVni(vni), innerSrc, innerDst, m);
  }

  lemma VniKept(vni: u32)
    ensures HeaderVni(vni) == vni <==> vni < 0x100_0000
  {
  }

  /**
   * `runVXLAN` over either underlay: the client never takes its own request for the reply, and reports the
   * responder's reply exactly when the responder owns the inner address, looks into VXLAN and is asked, and the VNI
   * is below 2^24.
   */
  lemma VxlanEcho(
      a: Agent, flows: Flows, aux: u16, dmac: Mac, smac: Mac, vlan: int,
      outerSrc: IP, outerDst: IP, sport: u16, vni: u32, innerSrc: IP, innerDst: IP, m: Meta)
    ensures var f := VxlanProbe(a, dmac, smac, vlan, outerSrc, outerDst, sport, vni, innerSrc, innerDst, m);
            var o := Handle(a, flows, f, aux);
            && o.flows == flows
            && FirstMatch(Arrivals(f, o), m.id, AcceptVxlan(vni)) ==
               if a.mode != Regular && Served(a, innerDst, m) && vni < 0x100_0000
               then Some(IcmpReply(a, vni, innerDst, m)) else None
  {
    hide VxlanProbe, Handle, Captured, Signed, EchoOf, IsEchoReply, Served, FirstMatch;
    var f := VxlanProbe(a, dmac, smac, vlan, outerSrc, outerDst, sport, vni, innerSrc, innerDst, m);
    VxlanOwnSeen(a, dmac, smac, vlan, outerSrc, outerDst, sport, vni, innerSrc, innerDst, m);
    IcmpTests(a, HeaderVni(vni), innerSrc, innerDst, m);
    VniKept(vni);
    FirstOfTwo(f, Handle(a, flows, f, aux), m.id, AcceptVxlan(vni));
    if a.mode != Regular && Served(a, innerDst, m) {
      VxlanAnswered(a, flows, aux, dmac, smac, vlan, outerSrc, outerDst, sport, vni, innerSrc, innerDst, m);
    } else {
      VxlanUnanswered(a, flows, aux, dmac, smac, vlan, outerSrc, outerDst, sport, vni, innerSrc, innerDst, m);
    }
  }

  // ---- against a live responder ----

  /** Send one frame: the client's sniffer sees it, and then whatever the responder answers. */
  method SendFrame(r: R.Responder, f: Bytes) returns (seen: seq<Bytes>)
    modifies r
    ensures r.flows == Handle(r.agent, old(r.flows), f, 0).flows
    ensures seen == Arrivals(f, Handle(r.agent, old(r.flows), f, 0))
  {
    hide Handle;
    var before := |r.sent|;
    r.Run(f, 0);
    seen := [f] + r.sent[before..];
  }

  /** `runICMP`; without --response nothing is waited for. */
  method RunIcmp(r: R.Responder, dmac: Mac, smac: Mac, vlan: int, src: IP, dst: IP, m: Meta)
    returns (got: Option<Capture>)
    modifies r
    ensures r.flows == old(r.flows)
    ensures got == if r.agent.mode != Vxlan && Served(r.agent, dst, m)
                   then Some(IcmpReply(r.agent, 0, dst, m)) else None
  {
    hide Handle, FirstMatch, IcmpProbe, IcmpReply;
    var a := r.agent;
    var f := IcmpProbe(a, dmac, smac, vlan, src, dst, m);
    IcmpEcho(a, r.flows, 0, dmac, smac, vlan, src, dst, m);
    var seen := SendFrame(r, f);
    if !m.needResponse { return None; }
    got := WaitReply(seen, m.id, AcceptEcho());
  }

  /** `runUDP`. */
  method RunUdp(r: R.Responder, dmac: Mac, smac: Mac, vlan: int, src: IP, dst: IP, sport: u16, dport: u16, m: Meta)
    returns (got: Option<Capture>)
    modifies r
    ensures r.flows == old(r.flows)
    ensures got == if !m.needResponse then None
                   else if sport == dport && dport != VXLAN_PORT then Some(UdpOwn(r.agent, src, dst, sport, dport, m))
                   else if UdpAnswered(r.agent, dst, sport, dport, m) then Some(UdpReply(r.agent, dst, sport, dport, m))
                   else None
  {
    hide Handle, FirstMatch, UdpProbe, UdpOwn, UdpReply;
    var a := r.agent;
    var f := UdpProbe(a, dmac, smac, vlan, src, dst, sport, dport, m);
    UdpEcho(a, r.flows, 0, dmac, smac, vlan, src, dst, sport, dport, m);
    var seen := SendFrame(r, f);
    if !m.needResponse { return None; }
    got := WaitReply(seen, m.id, AcceptUdp(sport));
  }

  /** `runVXLAN`. */
  method RunVxlan(
      r: R.Responder, dmac: Mac, smac: Mac, vlan: int, outerSrc: IP, outerDst: IP, sport: u16, vni: u32,
      innerSrc: IP, innerDst: IP, m: Meta) returns (got: Option<Capture>)
    modifies r
    ensures r.flows == old(r.flows)
    ensures got == if r.agent.mode != Regular && Served(r.agent, innerDst, m) && vni < 0x100_0000
                   then Some(IcmpReply(r.agent, vni, innerDst, m)) else None
  {
    hide Handle, FirstMatch, VxlanProbe, IcmpReply;
    var a := r.agent;
    var f := VxlanProbe(a, dmac, smac, vlan, outerSrc, outerDst, sport, vni, innerSrc, innerDst, m);
    VxlanEcho(a, r.flows, 0, dmac, smac, vlan, outerSrc, outerDst, sport, vni, innerSrc, innerDst, m);
    var seen := SendFrame(r, f);
    if !m.needResponse { return None; }
    got := WaitReply(seen, m.id, AcceptVxlan(vni));
  }
}
