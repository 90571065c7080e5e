/**
 * Concrete packets on which the classifier and the responder part: one for each condition that
 * Agreement.Aligned puts on a packet and its device. The condition on other taps' addresses is in module Hosts.
 */
module Disagreement {
  import opened Wire
  import opened Address
  import opened Builders
  import opened Dissect
  import opened Tfmeta
  import opened Replies
  import opened Exchange
  import opened Sightings
  import opened Agreement

  /** An agent without a key answering for `ips`, and the classifier loaded beside it. */
  function AgentFor(mode: Mode, ips: seq<IP>): Agent {
    Agent(mode, ResponderKeys(ips), true, [], (core: Bytes, key: Bytes) => Zeros(32), (k: FlowKey) => 0)
  }

  function EnvFor(mode: Mode, ips: seq<IP>): Env {
    Env(Some(Config(mode, true, true)), KernelKeys(ips), map[])
  }

  /** A marked, untagged packet. */
  function Probe(v6: bool, proto: byte, src: IP, dst: IP, l4: Bytes): (p: Packet)
    ensures p.tunnelId.None?
  {
    Packet(FrameL2(Zeros(6), Zeros(6), 0, EtherOf(v6), IpPacket(v6, TOS, TTL_MAX, proto, src, dst, l4)), 1, None, None)
  }

  /** A control block with the given flag octets. */
  function Block(deliver: byte, need: byte): (p: Bytes)
    ensures |p| == 30 && U32At(p, 0) == MAGIC && p[20] == deliver && p[21] == need
  {
    [0x54, 0x46, 0x4C, 0x4F] + Zeros(16) + [deliver, need] + Zeros(8)
  }

  const CLIENT: IP := [10, 0, 0, 1]
  const VM: IP := [10, 0, 0, 2]
  const CLIENT6: IP := [0xFD] + Zeros(14) + [1]
  const VM6: IP := [0xFD] + Zeros(14) + [2]

  function Request(v6: bool, src: IP, dst: IP, dport: u16, deliver: byte, need: byte): Bytes {
    Udp(v6, src, dst, 40000, dport, Block(deliver, need))
  }

  lemma RequestMark(v6: bool, src: IP, dst: IP, dport: u16, deliver: byte, need: byte)
    ensures var u := Request(v6, src, dst, dport, deliver, need);
            && MarkL4(u, PROTO_UDP).Some?
            && MarkL4(u, PROTO_UDP).value.need == need && MarkL4(u, PROTO_UDP).value.deliver == deliver
            && MarkL4(u, PROTO_UDP).value.proto == PROTO_UDP
            && U16At(u, 2) == dport && !HasVni(u[8])
            && PayloadOffset(PROTO_UDP, u) == Some(8) && u[8..] == Block(deliver, need)
  {
    hide Udp, Block;
    var u := Request(v6, src, dst, dport, deliver, need);
    var b := Block(deliver, need);
    assert u[8..] == b;
    assert U32At(u, 8) == U32At(b, 0) && u[28] == b[20] && u[29] == b[21] && u[8] == b[0];
    MagicOctets(b);
  }

  lemma ProbeParses(v6: bool, proto: byte, src: IP, dst: IP, l4: Bytes)
    ensures var l3 := IpPacket(v6, TOS, TTL_MAX, proto, src, dst, l4);
            && PlainL3(Probe(v6, proto, src, dst, l4).frame) == Some(L3(EtherOf(v6), l3))
            && ParseIp(EtherOf(v6), l3) == Some(Ip(v6, TOS, proto, AddrField(v6, src), AddrField(v6, dst), l4))
            && VersionMatches(Ip(v6, TOS, proto, AddrField(v6, src), AddrField(v6, dst), l4), l3)
  {
    hide FrameL2, Strip, ParseIp;
    var l3 := IpPacket(v6, TOS, TTL_MAX, proto, src, dst, l4);
    StripFrameL2(Zeros(6), Zeros(6), 0, EtherOf(v6), l3);
    ParseIpPacket(v6, TOS, TTL_MAX, proto, src, dst, l4);
  }

  lemma ProbeNotTunnel(v6: bool, proto: byte, src: IP, dst: IP, l4: Bytes)
    requires proto != PROTO_UDP || (|l4| >= 9 && !HasVni(l4[8]))
    ensures VxlanBody(Probe(v6, proto, src, dst, l4).frame).None?
  {
    hide Probe, ParseIp, Strip, HasVni, IpPacket;
    ProbeParses(v6, proto, src, dst, l4);
  }

  /** A request whose transport header follows directly is dropped whenever its key is local. */
  lemma RequestDropped(mode: Mode, ips: seq<IP>, v6: bool, src: IP, dst: IP, dport: u16, need: byte)
    requires mode != Vxlan && need != 0 && PacketKey(AddrField(v6, dst)) in KernelKeys(ips)
    ensures Drops(EnvFor(mode, ips), Probe(v6, PROTO_UDP, src, dst, Request(v6, src, dst, dport, 0, need)))
  {
    hide Probe, Request, ParseIp, PlainL3, VxlanBody, MarkL3, MarkL4, VersionMatches, IpPacket, KernelKeys, Drops,
      HasVni;
    var u := Request(v6, src, dst, dport, 0, need);
    RequestMark(v6, src, dst, dport, 0, need);
    ProbeParses(v6, PROTO_UDP, src, dst, u);
    ProbeNotTunnel(v6, PROTO_UDP, src, dst, u);
    DirectMark(EtherOf(v6), IpPacket(v6, TOS, TTL_MAX, PROTO_UDP, src, dst, u));
    DropsByL3(EnvFor(mode, ips), Probe(v6, PROTO_UDP, src, dst, u));
  }

  /** A well-formed request to an address of the responder's set is answered. */
  lemma RequestAnswered(flows: Flows, ips: seq<IP>, v6: bool, src: IP, dst: IP, deliver: byte)
    requires deliver != 1 && ResponderKey(AddrField(v6, dst)) in ResponderKeys(ips)
    ensures Reply(AgentFor(Regular, ips), flows,
                  Probe(v6, PROTO_UDP, src, dst, Request(v6, src, dst, 7, deliver, 1))).Some?
  {
    hide Probe, Request, ParseIp, PlainL3, VxlanBody, MarkL3, MarkL4, VersionMatches, IpPacket, ResponderKeys, Reply,
      PlanL4, EncodeL3, PayloadOf, HasVni;
    var u := Request(v6, src, dst, 7, deliver, 1);
    var a := AgentFor(Regular, ips);
    RequestMark(v6, src, dst, 7, deliver, 1);
    ProbeParses(v6, PROTO_UDP, src, dst, u);
    ProbeNotTunnel(v6, PROTO_UDP, src, dst, u);
    ReplyByL3(a, flows, Probe(v6, PROTO_UDP, src, dst, u));
    PlanIsMark(a, flows, ParseIp(EtherOf(v6), IpPacket(v6, TOS, TTL_MAX, PROTO_UDP, src, dst, u)).value);
  }

  /** The classifier loaded beside `AgentFor` knows its addresses. */
  lemma Serving(mode: Mode, ips: seq<IP>)
    ensures Serves(AgentFor(mode, ips), EnvFor(mode, ips), ips)
  {
    hide KernelKeys, ResponderKeys, IsMapped;
    KernelKeysUnmapped(ips);
  }

  /** need_response = 2: non-zero for the kernel, not 1 for the responder. */
  lemma FlagOctetMatters(flows: Flows)
    ensures var p := Probe(false, PROTO_UDP, CLIENT, VM, Request(false, CLIENT, VM, 7, 0, 2));
            Drops(EnvFor(Auto, [VM]), p) && Reply(AgentFor(Auto, [VM]), flows, p).None?
  {
    hide Probe, Request, ParseIp, PlainL3, VersionMatches, IpPacket, Drops, Reply, MarkL4, HasVni, KernelKeys;
    VmIsLocal();
    RequestDropped(Auto, [VM], false, CLIENT, VM, 7, 2);
    var u := Request(false, CLIENT, VM, 7, 0, 2);
    RequestMark(false, CLIENT, VM, 7, 0, 2);
    ProbeParses(false, PROTO_UDP, CLIENT, VM, u);
    DroppedIsAnswered(AgentFor(Auto, [VM]), flows, EnvFor(Auto, [VM]), Probe(false, PROTO_UDP, CLIENT, VM, u));
  }

  lemma VmIsLocal()
    ensures PacketKey(AddrField(false, VM)) in KernelKeys([VM])
    ensures ResponderKey(AddrField(false, VM)) in ResponderKeys([VM])
  {
    assert KernelKey([VM][0]) in KernelKeys([VM]) && ResponderKey([VM][0]) in ResponderKeys([VM]);
  }

  /** UDP to port 4789 under AUTO: plain for the kernel, a tunnel for the responder. */
  lemma VxlanPortMatters(flows: Flows)
    ensures var p := Probe(false, PROTO_UDP, CLIENT, VM, Request(false, CLIENT, VM, VXLAN_PORT, 0, 1));
            Drops(EnvFor(Auto, [VM]), p) && Reply(AgentFor(Auto, [VM]), flows, p).None?
  {
    hide Probe, Request, ParseIp, PlainL3, VersionMatches, IpPacket, Drops, Reply, MarkL4, HasVni, KernelKeys;
    VmIsLocal();
    RequestDropped(Auto, [VM], false, CLIENT, VM, VXLAN_PORT, 1);
    var u := Request(false, CLIENT, VM, VXLAN_PORT, 0, 1);
    RequestMark(false, CLIENT, VM, VXLAN_PORT, 0, 1);
    ProbeParses(false, PROTO_UDP, CLIENT, VM, u);
    DroppedIsAnswered(AgentFor(Auto, [VM]), flows, EnvFor(Auto, [VM]), Probe(false, PROTO_UDP, CLIENT, VM, u));
  }

  /** The IPv6 address whose octets are a local IPv4 address and zeros. */
  const SHADOW: IP := [10, 0, 0, 2] + Zeros(12)

  lemma KeyCollisionMatters(flows: Flows)
    ensures var p := Probe(true, PROTO_UDP, CLIENT6, SHADOW, Request(true, CLIENT6, SHADOW, 7, 0, 1));
            Drops(EnvFor(Auto, [VM]), p) && Reply(AgentFor(Auto, [VM]), flows, p).None?
  {
    hide Probe, Request, ParseIp, PlainL3, VersionMatches, IpPacket, Drops, Reply, MarkL4, HasVni;
    assert KernelKey([VM][0]) == SHADOW && KernelKey([VM][0]) in KernelKeys([VM]);
    RequestDropped(Auto, [VM], true, CLIENT6, SHADOW, 7, 1);
    var u := Request(true, CLIENT6, SHADOW, 7, 0, 1);
    ProbeParses(true, PROTO_UDP, CLIENT6, SHADOW, u);
    assert ResponderKey(VM)[0] == 0 && SHADOW[0] == 10;
    DroppedIsAnswered(AgentFor(Auto, [VM]), flows, EnvFor(Auto, [VM]), Probe(true, PROTO_UDP, CLIENT6, SHADOW, u));
  }

  /** An IPv4-mapped IPv6 destination: local for the responder, unknown to the kernel. */
  lemma MappedDestinationMatters(flows: Flows)
    ensures var m := MapV4(VM);
            var p := Probe(true, PROTO_UDP, CLIENT6, m, Request(true, CLIENT6, m, 7, 0, 1));
            Reply(AgentFor(Regular, [VM]), flows, p).Some? && !Drops(EnvFor(Regular, [VM]), p)
  {
    hide Probe, Request, ParseIp, PlainL3, VersionMatches, IpPacket, Drops, Reply, MarkL4, HasVni, KernelKeys,
      VxlanBody;
    var m := MapV4(VM);
    var u := Request(true, CLIENT6, m, 7, 0, 1);
    var p := Probe(true, PROTO_UDP, CLIENT6, m, u);
    assert ResponderKey([VM][0]) in ResponderKeys([VM]);
    RequestAnswered(flows, [VM], true, CLIENT6, m, 0);
    RequestMark(true, CLIENT6, m, 7, 0, 1);
    ProbeParses(true, PROTO_UDP, CLIENT6, m, u);
    ProbeNotTunnel(true, PROTO_UDP, CLIENT6, m, u);
    Serving(Regular, [VM]);
    AnsweredIsDropped(AgentFor(Regular, [VM]), flows, EnvFor(Regular, [VM]), [VM], p);
  }

  /** deliver = 2: set for the kernel, not 1 for the responder. */
  lemma DeliverOctetMatters(flows: Flows)
    ensures var p := Probe(false, PROTO_UDP, CLIENT, VM, Request(false, CLIENT, VM, 7, 2, 1));
            Reply(AgentFor(Regular, [VM]), flows, p).Some? && !Drops(EnvFor(Regular, [VM]), p)
  {
    hide Probe, Request, ParseIp, PlainL3, VersionMatches, IpPacket, Drops, Reply, MarkL4, HasVni, KernelKeys,
      ResponderKeys, VxlanBody;
    VmIsLocal();
    var u := Request(false, CLIENT, VM, 7, 2, 1);
    var p := Probe(false, PROTO_UDP, CLIENT, VM, u);
    RequestAnswered(flows, [VM], false, CLIENT, VM, 2);
    RequestMark(false, CLIENT, VM, 7, 2, 1);
    ProbeParses(false, PROTO_UDP, CLIENT, VM, u);
    ProbeNotTunnel(false, PROTO_UDP, CLIENT, VM, u);
    Serving(Regular, [VM]);
    AnsweredIsDropped(AgentFor(Regular, [VM]), flows, EnvFor(Regular, [VM]), [VM], p);
  }

  /** An empty Hop-by-Hop header in front of UDP. */
  const HOP_BY_HOP: Bytes := [17, 0, 1, 4, 0, 0, 0, 0]

  lemma BehindHopByHop(u: Bytes)
    ensures Walk(HOP_BY_HOP + u, 0, MAX_EXT) == Some(Transport(PROTO_UDP, u))
  {
    assert (HOP_BY_HOP + u)[8..] == u;
    assert SkipExt(HOP_BY_HOP + u, 0) == Some(Transport(PROTO_UDP, u));
    assert Walk(u, PROTO_UDP, 3) == Some(Transport(PROTO_UDP, u));
  }

  lemma ExtendedMark(src: IP, dst: IP, u: Bytes)
    requires MarkL4(u, PROTO_UDP).Some?
    ensures var m := MarkL3(ETH_IPV6, IPv6(TOS, TTL_MAX, 0, src, dst, HOP_BY_HOP + u));
            m.Some? && m.value.dst == To16(dst) && m.value.l4 == MarkL4(u, PROTO_UDP).value
  {
    hide MarkL4, Walk;
    BehindHopByHop(u);
  }

  /** An extension header: walked by the kernel, not by the responder. */
  lemma ExtensionHeaderMatters(flows: Flows)
    ensures var p := Probe(true, 0, CLIENT6, VM6, HOP_BY_HOP + Request(true, CLIENT6, VM6, 7, 0, 1));
            Drops(EnvFor(Auto, [VM6]), p) && Reply(AgentFor(Auto, [VM6]), flows, p).None?
  {
    hide Probe, Request, ParseIp, PlainL3, VersionMatches, IPv6, Drops, Reply, MarkL3, MarkL4, HasVni, VxlanBody;
    var u := Request(true, CLIENT6, VM6, 7, 0, 1);
    var p := Probe(true, 0, CLIENT6, VM6, HOP_BY_HOP + u);
    RequestMark(true, CLIENT6, VM6, 7, 0, 1);
    ExtendedMark(CLIENT6, VM6, u);
    ProbeParses(true, 0, CLIENT6, VM6, HOP_BY_HOP + u);
    ProbeNotTunnel(true, 0, CLIENT6, VM6, HOP_BY_HOP + u);
    assert VM6[0] != 0;
    assert KernelKey([VM6][0]) == VM6 && KernelKey([VM6][0]) in KernelKeys([VM6]);
    DropsByL3(EnvFor(Auto, [VM6]), p);
    DroppedIsAnswered(AgentFor(Auto, [VM6]), flows, EnvFor(Auto, [VM6]), p);
  }

  /** The client's own third segment of a handshake. */
  function BareAck(seqno: u32, ack: u32): Bytes {
    Tcp(false, CLIENT, VM, 40000, 7, seqno, ack, ACK, Block(0, 1))
  }

  lemma BareAckMark(seqno: u32, ack: u32)
    ensures var u := BareAck(seqno, ack);
            && |u| == 50 && u[13] == ACK
            && MarkL4(u, PROTO_TCP).Some?
            && MarkL4(u, PROTO_TCP).value.need == 1 && MarkL4(u, PROTO_TCP).value.deliver == 0
            && MarkL4(u, PROTO_TCP).value.proto == PROTO_TCP
  {
    hide TcpBlank, TcpNumbers, L4Checksum, Patched, Block;
    var u, b := BareAck(seqno, ack), Block(0, 1);
    assert u[20..] == b;
    assert U32At(u, 20) == U32At(b, 0) && u[40] == b[20] && u[41] == b[21];
  }

  /** The bare ACK of every TCP dialogue carries the control block: dropped, and never answered. */
  lemma BareAckMatters(flows: Flows, seqno: u32, ack: u32)
    ensures var p := Probe(false, PROTO_TCP, CLIENT, VM, BareAck(seqno, ack));
            Drops(EnvFor(Auto, [VM]), p) && Reply(AgentFor(Auto, [VM]), flows, p).None?
  {
    hide Probe, BareAck, ParseIp, PlainL3, VersionMatches, IpPacket, Drops, Reply, MarkL3, MarkL4, KernelKeys,
      VxlanBody;
    VmIsLocal();
    var u := BareAck(seqno, ack);
    var p := Probe(false, PROTO_TCP, CLIENT, VM, u);
    BareAckMark(seqno, ack);
    ProbeParses(false, PROTO_TCP, CLIENT, VM, u);
    ProbeNotTunnel(false, PROTO_TCP, CLIENT, VM, u);
    DirectMark(ETH_IPV4, IpPacket(false, TOS, TTL_MAX, PROTO_TCP, CLIENT, VM, u));
    DropsByL3(EnvFor(Auto, [VM]), p);
    DroppedIsAnswered(AgentFor(Auto, [VM]), flows, EnvFor(Auto, [VM]), p);
  }

  /** The kernel has no key: an unsigned probe is dropped, and the responder with a key does not answer it. */
  lemma UnsignedProbeMatters(flows: Flows, key: Bytes)
    requires |key| > 0
    ensures var p := Probe(false, PROTO_UDP, CLIENT, VM, Request(false, CLIENT, VM, 7, 0, 1));
            Drops(EnvFor(Auto, [VM]), p) && Reply(AgentFor(Auto, [VM]).(key := key), flows, p).None?
  {
    hide Probe, Request, ParseIp, PlainL3, VersionMatches, IpPacket, Drops, Reply, MarkL4, HasVni, KernelKeys;
    VmIsLocal();
    RequestDropped(Auto, [VM], false, CLIENT, VM, 7, 1);
    var u := Request(false, CLIENT, VM, 7, 0, 1);
    RequestMark(false, CLIENT, VM, 7, 0, 1);
    ProbeParses(false, PROTO_UDP, CLIENT, VM, u);
    DroppedIsAnswered(AgentFor(Auto, [VM]).(key := key), flows, EnvFor(Auto, [VM]),
                      Probe(false, PROTO_UDP, CLIENT, VM, u));
  }

  /** A plain request that is answered and would be dropped, were it not for where it was seen. */
  function GoodProbe(): Packet {
    Probe(false, PROTO_UDP, CLIENT, VM, Request(false, CLIENT, VM, 7, 0, 1))
  }

  /** A device registered as a tunnel, or a tunnel key on the packet: answered, and not dropped. */
  lemma DeviceVniMatters(flows: Flows, vni: u32)
    requires vni != 0
    ensures var a, env, p := AgentFor(Regular, [VM]), EnvFor(Regular, [VM]), GoodProbe();
            && Drops(env, p) && Reply(a, flows, p).Some?
            && !Drops(env.(ifaceVni := map[p.ifindex := vni]), p)
            && !Drops(env, p.(tunnelId := Some(vni))) && Reply(a, flows, p.(tunnelId := Some(vni))).Some?
  {
    hide Probe, Request, Drops, Handle, KernelKeys, ResponderKeys;
    VmIsLocal();
    RequestDropped(Regular, [VM], false, CLIENT, VM, 7, 1);
    RequestAnswered(flows, [VM], false, CLIENT, VM, 0);
    var env, p := EnvFor(Regular, [VM]), GoodProbe();
    TunnelledNeverDropped(env.(ifaceVni := map[p.ifindex := vni]), p);
    TunnelledNeverDropped(env, p.(tunnelId := Some(vni)));
  }

  /** The request with a version nibble of 5 in its IPv4 header. */
  function Misversioned(): Bytes {
    IpPacket(false, TOS, TTL_MAX, PROTO_UDP, CLIENT, VM, Request(false, CLIENT, VM, 7, 0, 1))[0 := 0x55]
  }

  function MisversionedProbe(): Packet {
    Packet(FrameL2(Zeros(6), Zeros(6), 0, ETH_IPV4, Misversioned()), 1, None, None)
  }

  lemma MisversionedParses()
    ensures var u := Request(false, CLIENT, VM, 7, 0, 1);
            && PlainL3(MisversionedProbe().frame) == Some(L3(ETH_IPV4, Misversioned()))
            && ParseIp(ETH_IPV4, Misversioned()) == Some(Ip(false, TOS, PROTO_UDP, CLIENT, VM, u))
            && !VersionMatches(Ip(false, TOS, PROTO_UDP, CLIENT, VM, u), Misversioned())
            && MarkL3(ETH_IPV4, Misversioned()).None?
  {
    hide FrameL2, Strip, Request;
    var u := Request(false, CLIENT, VM, 7, 0, 1);
    StripFrameL2(Zeros(6), Zeros(6), 0, ETH_IPV4, Misversioned());
    var was, l3 := IpPacket(false, TOS, TTL_MAX, PROTO_UDP, CLIENT, VM, u), Misversioned();
    ParseIpPacket(false, TOS, TTL_MAX, PROTO_UDP, CLIENT, VM, u);
    assert forall i :: 1 <= i < |l3| ==> l3[i] == was[i];
    assert l3[12..16] == was[12..16] && l3[16..20] == was[16..20] && l3[20..] == was[20..];
  }

  /** A wrong version nibble: the kernel looks at it, the responder does not. Answered, and not dropped. */
  lemma VersionNibbleMatters(flows: Flows)
    ensures var p := MisversionedProbe();
            Reply(AgentFor(Regular, [VM]), flows, p).Some? && !Drops(EnvFor(Regular, [VM]), p)
  {
    hide MisversionedProbe, Misversioned, Request, ParseIp, PlainL3, VxlanBody, MarkL3, MarkL4, VersionMatches,
      IpPacket, ResponderKeys, KernelKeys, Reply, PlanL4, EncodeL3, PayloadOf, HasVni, Drops;
    var u, a, p := Request(false, CLIENT, VM, 7, 0, 1), AgentFor(Regular, [VM]), MisversionedProbe();
    VmIsLocal();
    RequestMark(false, CLIENT, VM, 7, 0, 1);
    MisversionedParses();
    assert VxlanBody(p.frame).None? by { MisversionedNotTunnel(); }
    ReplyByL3(a, flows, p);
    PlanIsMark(a, flows, Ip(false, TOS, PROTO_UDP, CLIENT, VM, u));
    DropsByL3(EnvFor(Regular, [VM]), p);
  }

  lemma MisversionedNotTunnel()
    ensures VxlanBody(MisversionedProbe().frame).None?
  {
    hide MisversionedProbe, Misversioned, Request, ParseIp, Strip, HasVni, MarkL3, MarkL4, VersionMatches;
    RequestMark(false, CLIENT, VM, 7, 0, 1);
    MisversionedParses();
  }
}
