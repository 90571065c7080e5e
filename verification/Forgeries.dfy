/**
 * What a responder with a key does with payloads it cannot trust, said in terms of the octets compared: the HMAC of
 * octets 0 to 29 must stand in octets 30 to 61.
 */
module Forgeries {
  import opened Wire
  import opened Address
  import opened Builders
  import opened Dissect
  import opened Tfmeta
  import opened Replies
  import opened Exchange
  import E = Echo
  import D = Dialogue

  /** A control block that asks for an answer and not for delivery. */
  predicate Asks(p: Bytes) {
    |p| >= 30 && p[..4] == [0x54, 0x46, 0x4C, 0x4F] && p[20] != 1 && p[21] == 1
  }

  /** Exactly which payloads a responder acts on, octet by octet. */
  lemma GateOctets(a: Agent, p: Bytes)
    ensures Gate(a, p) ==> Asks(p)
    ensures Gate(a, p) && |a.key| > 0 ==> |p| >= 62 && p[30..62] == a.hmac(p[..30], a.key)
    ensures Asks(p) && |a.key| == 0 ==> Gate(a, p)
    ensures Asks(p) && |p| >= 62 && p[30..62] == a.hmac(p[..30], a.key) ==> Gate(a, p)
  {
    if |p| >= 4 {
      MagicOctets(p);
    }
  }

  /** The payload does not carry the HMAC of its control block under the responder's key. */
  predicate Forged(a: Agent, p: Bytes) {
    |a.key| > 0 && (|p| < 62 || p[30..62] != a.hmac(p[..30], a.key))
  }

  lemma ForgedFailsGate(a: Agent, p: Bytes)
    requires Forged(a, p)
    ensures !Gate(a, p)
  {
  }

  predicate IsReset(q: Ip) {
    q.proto == 6 && PayloadOffset(6, q.l4).Some? && IsRST(q.l4[13])
  }

  /** No forged payload draws a reply over any transport, and only a TCP reset, which nobody checks, moves the table. */
  lemma ForgedPlansNothing(a: Agent, flows: Flows, q: Ip)
    requires Forged(a, PayloadOf(q))
    ensures PlanL4(a, flows, q).reply.None?
    ensures !IsReset(q) ==> PlanL4(a, flows, q).flows == flows
  {
    hide Gate, Forged, EchoOf;
    ForgedFailsGate(a, PayloadOf(q));
  }

  /** The packet inside a frame that a responder in the given mode looks at. */
  function Considered(mode: Mode, frame: Bytes): Option<Ip> {
    var t := Target(mode, frame);
    if t.None? then None else ParseIp(t.value.etherType, t.value.bytes)
  }

  /** A frame with a forged payload draws nothing, plain or encapsulated, in any mode and state. */
  lemma ForgedFrameIgnored(a: Agent, flows: Flows, frame: Bytes, aux: u16)
    requires var q := Considered(a.mode, frame); q.Some? ==> Forged(a, PayloadOf(q.value))
    ensures Handle(a, flows, frame, aux).sent.None?
    ensures (var q := Considered(a.mode, frame); q.Some? ==> !IsReset(q.value)) ==>
              Handle(a, flows, frame, aux) == Outcome(flows, None)
  {
    hide Handle, Target, ParseIp, PlanL4, EncodeL3, Forged, PayloadOf, Marked, IsReset;
    HandleIsReplyTo(a, flows, frame, aux);
    var q := Considered(a.mode, frame);
    if q.Some? {
      ForgedPlansNothing(a, flows, q.value);
    }
  }

  // ---- the client's probes, signed with another key ----

  lemma PlainConsidered(mode: Mode, dmac: Mac, smac: Mac, vlan: int, proto: byte, src: IP, dst: IP, l4: Bytes)
    requires proto == 17 ==> |l4| >= 9 && !HasVni(l4[8])
    ensures var q := Considered(mode, E.ClientFrame(dmac, smac, vlan, IsV6(dst), E.ProbeL3(proto, TOS, src, dst, l4)));
            q.Some? ==> q.value == E.Arrived(proto, src, dst, l4)
  {
    hide E.ClientFrame, IpPacket, ParseIp, PlainL3, HasVni;
    var v6 := IsV6(dst);
    var l3 := E.ProbeL3(proto, TOS, src, dst, l4);
    var f := E.ClientFrame(dmac, smac, vlan, v6, l3);
    E.ClientFrameL3(dmac, smac, vlan, v6, l3);
    ParseIpPacket(v6, TOS, TTL_MAX, proto, src, dst, l4);
    E.PathOf(f);
  }

  /** `Signed` with `k`, followed by `rest`, is no signature for `a`: another HMAC, or none that fits. */
  predicate WrongKey(a: Agent, m: Meta, k: Bytes, rest: Bytes) {
    && |a.key| > 0
    && (if |k| > 0 then a.hmac(Encode(m), k) != a.hmac(Encode(m), a.key)
        else |rest| < 32 || rest[..32] != a.hmac(Encode(m), a.key))
  }

  lemma WrongKeyIsForged(a: Agent, m: Meta, k: Bytes, rest: Bytes)
    requires WrongKey(a, m, k, rest)
    ensures var p := Signed(a.hmac, m, k) + rest;
            Forged(a, p) && |p| >= 30 && p[0] == 0x54 && !HasVni(p[0])
  {
    var core := Encode(m);
    var p := Signed(a.hmac, m, k) + rest;
    assert p[..30] == core && p[0] == core[0];
    if |k| > 0 {
      assert p[30..62] == a.hmac(core, k);
    } else if |rest| >= 32 {
      assert p[30..62] == rest[..32];
    }
  }

  /** ICMP and ICMPv6 probes signed with another key, or not at all, draw nothing. */
  lemma WrongKeyIcmp(
      a: Agent, flows: Flows, aux: u16, dmac: Mac, smac: Mac, vlan: int, src: IP, dst: IP, m: Meta, k: Bytes)
    requires WrongKey(a, m, k, [])
    ensures var f := E.ClientFrame(dmac, smac, vlan, IsV6(dst), E.IcmpL3(src, dst, Signed(a.hmac, m, k)));
            Handle(a, flows, f, aux) == Outcome(flows, None)
  {
    hide Handle, E.ClientFrame, E.ProbeL3, Forged, Signed, Considered, Icmp, WrongKey, HasVni;
    var v6, p := IsV6(dst), Signed(a.hmac, m, k);
    WrongKeyIsForged(a, m, k, []);
    assert p + [] == p;
    var l4 := Icmp(v6, if v6 then ECHO_REQUEST6 else ECHO_REQUEST, 0x1234, 1, src, dst, p);
    PlainConsidered(a.mode, dmac, smac, vlan, E.IcmpProto(v6), src, dst, l4);
    ForgedFrameIgnored(a, flows, E.ClientFrame(dmac, smac, vlan, v6, E.IcmpL3(src, dst, p)), aux);
  }

  /** UDP probes signed with another key, or not at all, draw nothing. */
  lemma WrongKeyUdp(
      a: Agent, flows: Flows, aux: u16, dmac: Mac, smac: Mac, vlan: int, src: IP, dst: IP, sport: u16, dport: u16,
      m: Meta, k: Bytes)
    requires WrongKey(a, m, k, [])
    ensures var f := E.ClientFrame(dmac, smac, vlan, IsV6(dst), E.UdpL3(src, dst, sport, dport, Signed(a.hmac, m, k)));
            Handle(a, flows, f, aux) == Outcome(flows, None)
  {
    hide Handle, E.ClientFrame, E.ProbeL3, Forged, Signed, Considered, Udp, WrongKey, HasVni;
    var v6, p := IsV6(dst), Signed(a.hmac, m, k);
    WrongKeyIsForged(a, m, k, []);
    assert p + [] == p;
    var l4 := Udp(v6, src, dst, sport, dport, p);
    assert l4[8] == l4[8..][0];
    PlainConsidered(a.mode, dmac, smac, vlan, PROTO_UDP, src, dst, l4);
    ForgedFrameIgnored(a, flows, E.ClientFrame(dmac, smac, vlan, v6, E.UdpL3(src, dst, sport, dport, p)), aux);
  }

  /** TCP segments signed with another key, or not at all, draw nothing and, without RST, leave every flow alone. */
  lemma WrongKeyTcp(
      a: Agent, flows: Flows, aux: u16, c: D.Client, seqno: u32, ack: u32, flags: byte, k: Bytes, rest: Bytes)
    requires WrongKey(a, c.meta, k, rest)
    ensures var s := Seg(D.KeyOf(c), seqno, flags, Signed(a.hmac, c.meta, k) + rest);
            var o := Handle(a, flows, D.SegmentFrame(c, s, ack), aux);
            o.sent.None? && (!IsRST(flags) ==> o == Outcome(flows, None))
  {
    hide Handle, E.ClientFrame, E.ProbeL3, Forged, Signed, Considered, Tcp, WrongKey, HasVni, IsRST, SegOf;
    var v6, p := IsV6(c.dst), Signed(a.hmac, c.meta, k) + rest;
    WrongKeyIsForged(a, c.meta, k, rest);
    var s := Seg(D.KeyOf(c), seqno, flags, p);
    var l4 := Tcp(v6, c.src, c.dst, c.sport, c.dport, seqno, ack, flags, p);
    D.SegmentArrives(c, s, ack);
    PlainConsidered(a.mode, c.dstMac, c.srcMac, c.vlan, PROTO_TCP, c.src, c.dst, l4);
    ForgedFrameIgnored(a, flows, D.SegmentFrame(c, s, ack), aux);
  }
}
