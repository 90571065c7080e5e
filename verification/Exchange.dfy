/**
 * Facts about one request and its reply: which packet inside a frame the responder considers, what
 * an emitted reply parses back to, and why no reply can set off another.
 */
module Exchange {
  import opened Wire
  import opened Address
  import opened Builders
  import opened Dissect
  import opened Tfmeta
  import opened Replies
  import Sightings

  // ---- the packet a frame is judged by ----

  datatype L3 = L3(etherType: u16, bytes: Bytes)

  function PlainL3(frame: Bytes): Option<L3> {
    var l2 := Strip(frame);
    if l2.None? then None else Some(L3(l2.value.etherType, frame[l2.value.off..]))
  }

  /** The layer-3 packet considered in a given mode: the frame's own, or the encapsulated one. */
  function Target(mode: Mode, frame: Bytes): Option<L3> {
    if mode == Vxlan || (mode == Auto && IsVxlanFrame(frame)) then
      var vx := Sightings.VxlanBody(frame);
      if vx.None? then None else PlainL3(vx.value[8..])
    else PlainL3(frame)
  }

  function ReplyTo(a: Agent, flows: Flows, t: Option<L3>): Outcome {
    if t.None? then Outcome(flows, None) else ReplyL3(a, flows, t.value.etherType, t.value.bytes)
  }

  /** Framing and encapsulation decide neither the flow table nor whether there is a reply. */
  lemma HandleIsReplyTo(a: Agent, flows: Flows, frame: Bytes, aux: u16)
    ensures Handle(a, flows, frame, aux).flows == ReplyTo(a, flows, Target(a.mode, frame)).flows
    ensures Handle(a, flows, frame, aux).sent.Some? <==> ReplyTo(a, flows, Target(a.mode, frame)).sent.Some?
  {
    hide ReplyL3, OuterUdp, Strip, HasVni, FrameL2, Reencapsulate;
  }

  // ---- the shape of a reply ----

  /** The octets after the transport header. */
  function PayloadOf(q: Ip): Bytes {
    var off := PayloadOffset(q.proto, q.l4);
    if off.None? then [] else q.l4[off.value..]
  }

  predicate ReplyFlags(flags: byte) {
    flags == SYN_ACK || flags == FIN_ACK || flags == PSH_ACK
  }

  /** Every reply echoes a payload that passed the gate, over the transport it came in on. */
  lemma ReplyShape(a: Agent, flows: Flows, q: Ip)
    requires PlanL4(a, flows, q).reply.Some?
    ensures var r := PlanL4(a, flows, q).reply.value;
            && PayloadOffset(q.proto, q.l4).Some?
            && Gate(a, PayloadOf(q))
            && r.payload == EchoOf(a, PayloadOf(q))
            && (r.Segment? <==> q.proto == PROTO_TCP)
            && (r.Datagram? <==> q.proto == PROTO_UDP)
            && (r.Segment? ==> ReplyFlags(r.flags))
            && (r.Echo? ==> r.id == U16At(q.l4, 4) && r.number == U16At(q.l4, 6))
            && (!r.Echo? ==> r.sport == U16At(q.l4, 2) && r.dport == U16At(q.l4, 0))
  {
    hide Gate, EchoOf;
  }

  /** The reply as its receiver parses it. */
  lemma ParseReply(q: Ip, r: L4Reply)
    ensures ParseIp(EtherOf(q.v6), EncodeL3(q, r)) ==
            Some(Ip(q.v6, TOS, ProtoOf(q.v6, r), AddrField(q.v6, q.dst), AddrField(q.v6, q.src),
                    EncodeL4(q.v6, q.dst, q.src, r)))
  {
    hide EncodeL4, IpPacket, ParseIp;
    ParseIpPacket(q.v6, TOS, TTL_MAX, ProtoOf(q.v6, r), q.dst, q.src, EncodeL4(q.v6, q.dst, q.src, r));
  }

  /** Where the payload sits in an encoded reply. */
  lemma EncodedL4(v6: bool, from: IP, to: IP, r: L4Reply)
    ensures var l4, off := EncodeL4(v6, from, to, r), if r.Segment? then 20 else 8;
            && |l4| == off + |r.payload| && l4[off..] == r.payload
            && PayloadOffset(ProtoOf(v6, r), l4) == Some(off)
            && (r.Segment? ==> l4[13] == r.flags && l4[12] == 0x50)
            && (!r.Echo? ==> U16At(l4, 0) == r.sport && U16At(l4, 2) == r.dport)
            && (r.Segment? ==> U32At(l4, 4) == r.seqno && U32At(l4, 8) == r.ack)
            && (r.Echo? ==> l4[0] == if v6 then ECHO_REPLY6 else ECHO_REPLY)
            && (r.Echo? ==> U16At(l4, 4) == r.id && U16At(l4, 6) == r.number)
  {
    hide L4Checksum, IcmpChecksum, IcmpBlank, UdpBlank, TcpBlank, TcpNumbers, Patched;
  }

  // ---- quiet packets ----

  /** A marked-looking packet that asks for nothing, resets nothing and is not a VXLAN body. */
  predicate Quiet(q: Ip) {
    var off := PayloadOffset(q.proto, q.l4);
    && off.Some?
    && |q.l4| >= off.value + META_SIZE
    && q.l4[off.value + 21] == 0
    && !HasVni(q.l4[off.value])
    && (q.proto == PROTO_TCP ==> !IsRST(q.l4[13]))
  }

  lemma QuietPlansNothing(a: Agent, flows: Flows, q: Ip)
    requires Quiet(q)
    ensures PlanL4(a, flows, q) == Plan(flows, None)
  {
    var off := PayloadOffset(q.proto, q.l4).value;
    assert q.l4[off..][21] == q.l4[off + 21] == 0;
    assert !Gate(a, q.l4[off..]);
    hide Gate;
    if q.proto == PROTO_TCP {
      assert SegOf(q).value.data == q.l4[off..] && SegOf(q).value.flags == q.l4[13];
    }
  }

  /** A payload that asks for nothing and does not start like a VXLAN header. */
  predicate QuietPayload(p: Bytes) {
    |p| >= META_SIZE && p[21] == 0 && !HasVni(p[0])
  }

  lemma EchoIsQuiet(a: Agent, payload: Bytes)
    requires Gate(a, payload)
    ensures QuietPayload(EchoOf(a, payload))
  {
    hide Verify, Sanitized, HasVni;
    SanitizedIsAuthentic(a.hmac, a.key, payload);
    MagicOctets(payload);
  }

  lemma EncodedIsQuiet(q: Ip, r: L4Reply)
    requires QuietPayload(r.payload) && (r.Segment? ==> ReplyFlags(r.flags))
    ensures var p := ParseIp(EtherOf(q.v6), EncodeL3(q, r));
            p.Some? && Quiet(p.value)
  {
    hide EncodeL3, EncodeL4, ParseIp, PayloadOffset;
    ParseReply(q, r);
    EncodedL4(q.v6, q.dst, q.src, r);
    var l4, off := EncodeL4(q.v6, q.dst, q.src, r), if r.Segment? then 20 else 8;
    assert l4[off + 21] == l4[off..][21] && l4[off] == l4[off..][0];
  }

  lemma ReplyIsQuiet(a: Agent, flows: Flows, q: Ip)
    requires PlanL4(a, flows, q).reply.Some?
    ensures var l3 := EncodeL3(q, PlanL4(a, flows, q).reply.value);
            var p := ParseIp(EtherOf(q.v6), l3);
            p.Some? && Quiet(p.value)
  {
    hide PlanL4, EncodeL3, ParseIp, PayloadOffset, Gate, EchoOf, Quiet;
    ReplyShape(a, flows, q);
    EchoIsQuiet(a, PayloadOf(q));
    EncodedIsQuiet(q, PlanL4(a, flows, q).reply.value);
  }

  /** A frame whose own packet is quiet. */
  predicate QuietFrame(f: Bytes) {
    var t := PlainL3(f);
    t.Some? && ParseIp(t.value.etherType, t.value.bytes).Some? && Quiet(ParseIp(t.value.etherType, t.value.bytes).value)
  }

  /** An unmarked VXLAN frame around a quiet one. */
  predicate QuietTunnel(f: Bytes) {
    var t := PlainL3(f);
    && t.Some?
    && ToVxlanPort(t.value.etherType, t.value.bytes)
    && OuterUdp(t.value.etherType, t.value.bytes).value.tos == 0
    && Sightings.VxlanBody(f).Some?
    && QuietFrame(Sightings.VxlanBody(f).value[8..])
  }

  lemma QuietFrameUnanswered(b: Agent, flows: Flows, f: Bytes, aux: u16)
    requires QuietFrame(f) || QuietTunnel(f)
    ensures Handle(b, flows, f, aux) == Outcome(flows, None)
  {
    hide Quiet, PlanL4, EncodeL3, Strip, ParseIp, Handle, Sightings.VxlanBody;
    HandleIsReplyTo(b, flows, f, aux);
    var t := Target(b.mode, f);
    if QuietFrame(f) {
      NotVxlanBody(f);
    }
    if t.Some? {
      var q := ParseIp(t.value.etherType, t.value.bytes);
      if q.Some? && Quiet(q.value) {
        QuietPlansNothing(b, flows, q.value);
      }
    }
  }

  /** The payload of a quiet datagram to port 4789 starts with 'T', which lacks the VXLAN I bit. */
  lemma NotVxlanBody(f: Bytes)
    requires QuietFrame(f)
    ensures Sightings.VxlanBody(f).None?
  {
    hide Strip, ParseIp, HasVni;
    var t := PlainL3(f).value;
    if ToVxlanPort(t.etherType, t.bytes) {
      var q := ParseIp(t.etherType, t.bytes).value;
      assert q.l4[8..][0] == q.l4[8];
    }
  }

  lemma QuietMark(etherType: u16, l3: Bytes)
    requires Sightings.MarkL3(etherType, l3).Some?
    requires ParseIp(etherType, l3).Some? && Quiet(ParseIp(etherType, l3).value)
    ensures Sightings.MarkL3(etherType, l3).value.l4.need == 0
  {
    var q := ParseIp(etherType, l3).value;
    var off := PayloadOffset(q.proto, q.l4).value;
    hide Marked;
    if etherType == ETH_IPV6 {
      assert !Sightings.IsExt(q.proto);
      assert Sightings.Walk(l3[40..], l3[6], 4) == Some(Sightings.Transport(q.proto, q.l4));
    }
    assert Some(Sightings.MarkL3(etherType, l3).value.l4) == Sightings.MarkL4(q.l4, q.proto);
  }

  lemma QuietFrameNotDropped(env: Sightings.Env, p: Sightings.Packet)
    requires QuietFrame(p.frame) || QuietTunnel(p.frame)
    ensures !Sightings.Drops(env, p)
  {
    hide Strip, Quiet, Sightings.MarkL3, Sightings.VxlanBody;
    var f := p.frame;
    var t := PlainL3(f).value;
    if QuietFrame(f) {
      NotVxlanBody(f);
      if Sightings.MarkL3(t.etherType, t.bytes).Some? {
        QuietMark(t.etherType, t.bytes);
      }
    } else {
      UnmarkedUnseen(t.etherType, t.bytes);
    }
  }

  lemma UnmarkedUnseen(etherType: u16, l3: Bytes)
    requires ParseIp(etherType, l3).Some? && ParseIp(etherType, l3).value.tos == 0
    ensures Sightings.MarkL3(etherType, l3).None?
  {
  }

  // ---- emitted frames ----

  /** A plain reply frame holds the reply packet, in the VLAN of the request or else the offloaded one. */
  lemma EmittedPlain(a: Agent, flows: Flows, frame: Bytes, aux: u16)
    requires HandleRegular(a, flows, frame, aux).sent.Some?
    ensures PlainL3(frame).Some?
    ensures var f, t := HandleRegular(a, flows, frame, aux).sent.value, PlainL3(frame).value;
            && ReplyTo(a, flows, Some(t)).sent.Some?
            && PlainL3(f) == Some(L3(t.etherType, ReplyTo(a, flows, Some(t)).sent.value))
            && Strip(f).value.vlan == (if Strip(frame).value.vlan != 0 then Strip(frame).value.vlan else aux) % 0x1000
            && f[0..6] == frame[6..12] && f[6..12] == frame[0..6]
  {
    hide Strip, PlanL4, EncodeL3, FrameL2;
    var l2 := Strip(frame).value;
    var q := Admitted(a, l2.etherType, frame[l2.off..]).value;
    var reply := EncodeL3(q, PlanL4(a, flows, q).reply.value);
    StripFrameL2(SrcMac(frame), DstMac(frame), OrVlan(l2.vlan, aux), l2.etherType, reply);
  }

  /** A tunnelled reply frame holds the reply packet under the VNI of the request, in an unmarked outer packet. */
  lemma EmittedTunnel(a: Agent, flows: Flows, frame: Bytes, aux: u16)
    requires HandleVxlan(a, flows, frame, aux).sent.Some?
    ensures var f, vx := HandleVxlan(a, flows, frame, aux).sent.value, Sightings.VxlanBody(frame);
            && vx.Some?
            && var t := PlainL3(vx.value[8..]);
            && t.Some? && ReplyTo(a, flows, t).sent.Some?
            && var body := Sightings.VxlanBody(f);
            && body.Some?
            && PlainL3(body.value[8..]) == Some(L3(t.value.etherType, ReplyTo(a, flows, t).sent.value))
            && U32At(body.value, 4) / 0x100 == U32At(vx.value, 4) / 0x100
            && PlainL3(f).Some?
            && ToVxlanPort(PlainL3(f).value.etherType, PlainL3(f).value.bytes)
            && OuterUdp(PlainL3(f).value.etherType, PlainL3(f).value.bytes).value.tos == 0
  {
    hide Strip, PlanL4, EncodeL3, FrameL2, IpPacket, VxlanEncap, Udp, ParseIp;
    var l2 := Strip(frame).value;
    var outer := OuterUdp(l2.etherType, frame[l2.off..]).value;
    var vx := outer.l4[8..];
    var inner := vx[8..];
    var il2 := Strip(inner).value;
    var q := Admitted(a, il2.etherType, inner[il2.off..]).value;
    var reply := EncodeL3(q, PlanL4(a, flows, q).reply.value);
    FamilyOf(il2.etherType, inner[il2.off..]);
    FamilyOf(l2.etherType, frame[l2.off..]);
    StripFrameL2(SrcMac(inner), DstMac(inner), il2.vlan, il2.etherType, reply);
    var innerEth := FrameL2(SrcMac(inner), DstMac(inner), il2.vlan, il2.etherType, reply);
    var body := VxlanEncap(U32At(vx, 4) / 0x100, innerEth);
    TunnelParses(SrcMac(frame), DstMac(frame), OrVlan(l2.vlan, aux), outer.v6, outer.dst, outer.src, VXLAN_PORT, body);
  }

  /** At every layer of a tunnelled reply the addresses are turned round and the tags kept. */
  lemma TunnelTurnedRound(a: Agent, flows: Flows, frame: Bytes, aux: u16)
    requires HandleVxlan(a, flows, frame, aux).sent.Some?
    ensures Strip(frame).Some? && Sightings.VxlanBody(frame).Some?
    ensures var f, l2 := HandleVxlan(a, flows, frame, aux).sent.value, Strip(frame).value;
            var inner := Sightings.VxlanBody(frame).value[8..];
            var outer := OuterUdp(l2.etherType, frame[l2.off..]);
            && |f| >= 14 && f[0..6] == frame[6..12] && f[6..12] == frame[0..6]
            && Strip(f).Some? && Strip(f).value.vlan == (if l2.vlan != 0 then l2.vlan else aux) % 0x1000
            && PlainL3(f).Some? && outer.Some?
            && var o := OuterUdp(PlainL3(f).value.etherType, PlainL3(f).value.bytes);
            && o.Some? && o.value.src == outer.value.dst && o.value.dst == outer.value.src
            && var body := Sightings.VxlanBody(f);
            && body.Some? && Strip(inner).Some? && Strip(body.value[8..]).Some?
            && Strip(body.value[8..]).value.vlan == Strip(inner).value.vlan % 0x1000
            && |inner| >= 14 && |body.value| >= 22
            && body.value[8..][0..6] == inner[6..12] && body.value[8..][6..12] == inner[0..6]
  {
    hide Strip, PlanL4, EncodeL3, FrameL2, IpPacket, VxlanEncap, Udp, ParseIp;
    var l2 := Strip(frame).value;
    var outer := OuterUdp(l2.etherType, frame[l2.off..]).value;
    var vx := outer.l4[8..];
    var inner := vx[8..];
    var il2 := Strip(inner).value;
    var q := Admitted(a, il2.etherType, inner[il2.off..]).value;
    var reply := EncodeL3(q, PlanL4(a, flows, q).reply.value);
    FamilyOf(il2.etherType, inner[il2.off..]);
    FamilyOf(l2.etherType, frame[l2.off..]);
    ParsedFields(l2.etherType, frame[l2.off..]);
    StripFrameL2(SrcMac(inner), DstMac(inner), il2.vlan, il2.etherType, reply);
    var innerEth := FrameL2(SrcMac(inner), DstMac(inner), il2.vlan, il2.etherType, reply);
    var body := VxlanEncap(U32At(vx, 4) / 0x100, innerEth);
    var udp := Udp(outer.v6, outer.dst, outer.src, VXLAN_PORT, VXLAN_PORT, body);
    StripFrameL2(SrcMac(frame), DstMac(frame), OrVlan(l2.vlan, aux), l2.etherType,
                 IpPacket(outer.v6, 0, TTL_MAX, PROTO_UDP, outer.dst, outer.src, udp));
    TunnelParses(SrcMac(frame), DstMac(frame), OrVlan(l2.vlan, aux), outer.v6, outer.dst, outer.src, VXLAN_PORT, body);
  }

  /** The outer header of a tunnelled reply: both ports 4789, TTL 255. */
  lemma TunnelOuterHeader(a: Agent, flows: Flows, frame: Bytes, aux: u16)
    requires HandleVxlan(a, flows, frame, aux).sent.Some?
    ensures var t := PlainL3(HandleVxlan(a, flows, frame, aux).sent.value);
            && t.Some?
            && var o := OuterUdp(t.value.etherType, t.value.bytes);
            && o.Some? && |o.value.l4| >= 8 && U16At(o.value.l4, 0) == 4789 && U16At(o.value.l4, 2) == 4789
            && |t.value.bytes| >= 20 && t.value.bytes[if o.value.v6 then 7 else 8] == 255
  {
    hide Strip, PlanL4, EncodeL3, FrameL2, VxlanEncap, Udp, ParseIp, IPv4, IPv6;
    var l2 := Strip(frame).value;
    var outer := OuterUdp(l2.etherType, frame[l2.off..]).value;
    var vx := outer.l4[8..];
    var inner := vx[8..];
    var il2 := Strip(inner).value;
    var q := Admitted(a, il2.etherType, inner[il2.off..]).value;
    var reply := EncodeL3(q, PlanL4(a, flows, q).reply.value);
    FamilyOf(l2.etherType, frame[l2.off..]);
    var innerEth := FrameL2(SrcMac(inner), DstMac(inner), il2.vlan, il2.etherType, reply);
    var body := VxlanEncap(U32At(vx, 4) / 0x100, innerEth);
    var udp := Udp(outer.v6, outer.dst, outer.src, VXLAN_PORT, VXLAN_PORT, body);
    var l3 := IpPacket(outer.v6, 0, TTL_MAX, PROTO_UDP, outer.dst, outer.src, udp);
    StripFrameL2(SrcMac(frame), DstMac(frame), OrVlan(l2.vlan, aux), l2.etherType, l3);
    ParseIpPacket(outer.v6, 0, TTL_MAX, PROTO_UDP, outer.dst, outer.src, udp);
  }

  /** Addresses parsed from a packet already have the width of their family. */
  lemma ParsedFields(etherType: u16, l3: Bytes)
    requires ParseIp(etherType, l3).Some?
    ensures var q := ParseIp(etherType, l3).value;
            AddrField(q.v6, q.src) == q.src && AddrField(q.v6, q.dst) == q.dst
  {
  }

  lemma FamilyOf(etherType: u16, l3: Bytes)
    requires ParseIp(etherType, l3).Some?
    ensures etherType == EtherOf(ParseIp(etherType, l3).value.v6)
  {
  }

  /** The frame around a VXLAN body, as every parser sees it. */
  lemma TunnelParses(dst: Mac, src: Mac, vlan: u16, v6: bool, from: IP, to: IP, sport: u16, body: Bytes)
    requires |body| >= 8 && body[0] == 8
    ensures var udp := Udp(v6, from, to, sport, VXLAN_PORT, body);
            var f := FrameL2(dst, src, vlan, EtherOf(v6), IpPacket(v6, 0, TTL_MAX, PROTO_UDP, from, to, udp));
            && PlainL3(f).Some?
            && ToVxlanPort(PlainL3(f).value.etherType, PlainL3(f).value.bytes)
            && OuterUdp(PlainL3(f).value.etherType, PlainL3(f).value.bytes).value ==
               Ip(v6, 0, PROTO_UDP, AddrField(v6, from), AddrField(v6, to), udp)
            && Sightings.VxlanBody(f) == Some(body)
  {
    hide FrameL2, Strip, Udp, IpPacket, ParseIp;
    var udp := Udp(v6, from, to, sport, VXLAN_PORT, body);
    ParseIpPacket(v6, 0, TTL_MAX, PROTO_UDP, from, to, udp);
    StripFrameL2(dst, src, vlan, EtherOf(v6), IpPacket(v6, 0, TTL_MAX, PROTO_UDP, from, to, udp));
  }

  /** A reply packet is quiet whichever request drew it. */
  lemma ReplyToIsQuiet(a: Agent, flows: Flows, t: L3)
    requires ReplyTo(a, flows, Some(t)).sent.Some?
    ensures var p := ParseIp(t.etherType, ReplyTo(a, flows, Some(t)).sent.value);
            p.Some? && Quiet(p.value)
  {
    hide PlanL4, EncodeL3, Quiet, ParseIp;
    FamilyOf(t.etherType, t.bytes);
    ReplyIsQuiet(a, flows, Admitted(a, t.etherType, t.bytes).value);
  }

  /**
   * No reply triggers another: a frame one responder emits draws nothing from any responder, in any
   * mode, with any local set, key and flow table, leaves that table alone, and no classifier drops it.
   */
  lemma NoReplyTriggersAnother(
      a: Agent, flows: Flows, frame: Bytes, aux: u16,
      b: Agent, flows2: Flows, aux2: u16, env: Sightings.Env, p: Sightings.Packet)
    requires Handle(a, flows, frame, aux).sent == Some(p.frame)
    ensures Handle(b, flows2, p.frame, aux2) == Outcome(flows2, None)
    ensures !Sightings.Drops(env, p)
  {
    hide HandleRegular, HandleVxlan, PlainL3, ReplyL3, Quiet, ParseIp, Sightings.VxlanBody, Sightings.Drops;
    if a.mode == Vxlan || (a.mode == Auto && IsVxlanFrame(frame)) {
      EmittedTunnel(a, flows, frame, aux);
      ReplyToIsQuiet(a, flows, PlainL3(Sightings.VxlanBody(frame).value[8..]).value);
      assert QuietTunnel(p.frame);
    } else {
      EmittedPlain(a, flows, frame, aux);
      ReplyToIsQuiet(a, flows, PlainL3(frame).value);
      assert QuietFrame(p.frame);
    }
    QuietFrameUnanswered(b, flows2, p.frame, aux2);
    QuietFrameNotDropped(env, p);
  }
}
