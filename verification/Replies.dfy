/**
 * What the userspace responder should do with a frame: a pure function from its settings, its
 * flow table and the frame to a new table and at most one frame to send. TCP replies are kept as
 * fields until they are encoded, so that sequence numbers can be reasoned about.
 */
module Replies {
  import opened Wire
  import opened Address
  import opened Builders
  import opened Dissect
  import opened Tfmeta

  /** `flowKey` prints both addresses; two print alike exactly when their To16 forms are equal. */
  datatype FlowKey = FlowKey(src: Addr16, dst: Addr16, sport: u16, dport: u16)

  /** Per-connection state: the next sequence number to send. */
  type Flows = map<FlowKey, u32>

  const FLOW_CAP: nat := 4096

  /** `isn` stands for the FNV-1a hash `serverISN` takes of the 4-tuple. */
  datatype Agent = Agent(
    mode: Mode, local: set<Addr16>, tcpRespond: bool, key: Bytes, hmac: Hmac, isn: FlowKey -> u32)

  datatype L4Reply =
    | Echo(id: u16, number: u16, payload: Bytes)
    | Datagram(sport: u16, dport: u16, payload: Bytes)
    | Segment(sport: u16, dport: u16, seqno: u32, ack: u32, flags: byte, payload: Bytes)

  datatype Plan = Plan(flows: Flows, reply: Option<L4Reply>)

  /** The gate every reply passes: a control block that wants an answer, not delivery, and verifies. */
  predicate Gate(a: Agent, payload: Bytes) {
    var m := Unmarshal(payload);
    m.Some? && m.value.needResponse && !m.value.deliver && Verify(a.hmac, payload, a.key)
  }

  lemma GateLength(a: Agent, payload: Bytes)
    requires Gate(a, payload)
    ensures |payload| >= META_SIZE
  {
  }

  function EchoOf(a: Agent, payload: Bytes): (r: Bytes)
    ensures |r| == |payload|
  {
    Sanitized(a.hmac, a.key, payload)
  }

  // ---- TCP ----

  /** A TCP segment as `buildTCPReply` reads it. */
  datatype Seg = Seg(key: FlowKey, seqno: u32, flags: byte, data: Bytes)

  function SegOf(q: Ip): Option<Seg> {
    var off := PayloadOffset(PROTO_TCP, q.l4);
    if off.None? then None
    else
      var key := FlowKey(To16(q.src), To16(q.dst), U16At(q.l4, 0), U16At(q.l4, 2));
      Some(Seg(key, U32At(q.l4, 4), q.l4[13], q.l4[off.value..]))
  }

  /** What the server will send next on a flow: tracked, or derived when it is not. */
  function ServerNext(a: Agent, flows: Flows, key: FlowKey): u32 {
    if key in flows then flows[key] else Add32(a.isn(key), 1)
  }

  predicate Opens(s: Seg) { IsSYN(s.flags) && !IsACK(s.flags) }

  predicate Closes(s: Seg) { !Opens(s) && IsFIN(s.flags) }

  predicate Pushes(s: Seg) { !Opens(s) && !IsFIN(s.flags) && IsPSH(s.flags) }

  function TcpReply(s: Seg, seqno: u32, ack: u32, flags: byte, echo: Bytes): L4Reply {
    Segment(s.key.dport, s.key.sport, seqno, ack, flags, echo)
  }

  function PlanSeg(a: Agent, flows: Flows, s: Seg): (p: Plan)
    ensures p.reply.Some? ==> p.reply.value.Segment?
  {
    if IsRST(s.flags) then Plan(flows - {s.key}, None)
    else if !Gate(a, s.data) then Plan(flows, None)
    else
      var echo := EchoOf(a, s.data);
      var next := ServerNext(a, flows, s.key);
      if Opens(s) then
        var isn := a.isn(s.key);
        var kept := if |flows| > FLOW_CAP then map[] else flows;
        Plan(kept[s.key := Add32(isn, 1 + |echo|)], Some(TcpReply(s, isn, Add32(s.seqno, 1), SYN_ACK, echo)))
      else if Closes(s) then
        Plan(flows - {s.key}, Some(TcpReply(s, next, Add32(s.seqno, |s.data| + 1), FIN_ACK, echo)))
      else if Pushes(s) then
        Plan(flows[s.key := Add32(next, |echo|)],
             Some(TcpReply(s, next, Add32(s.seqno, |s.data|), PSH_ACK, echo)))
      else Plan(flows, None)
  }

  function PlanTcp(a: Agent, flows: Flows, q: Ip): Plan {
    var s := SegOf(q);
    if !a.tcpRespond || s.None? then Plan(flows, None) else PlanSeg(a, flows, s.value)
  }

  // ---- any transport ----

  function PlanL4(a: Agent, flows: Flows, q: Ip): Plan {
    if q.proto == PROTO_TCP then PlanTcp(a, flows, q)
    else if |q.l4| < 8 || !Gate(a, q.l4[8..]) then Plan(flows, None)
    else if q.proto == PROTO_ICMP || q.proto == PROTO_ICMPV6 then
      Plan(flows, Some(Echo(U16At(q.l4, 4), U16At(q.l4, 6), EchoOf(a, q.l4[8..]))))
    else if q.proto == PROTO_UDP then
      Plan(flows, Some(Datagram(U16At(q.l4, 2), U16At(q.l4, 0), EchoOf(a, q.l4[8..]))))
    else Plan(flows, None)
  }

  /** The packet this node answers for: parsed, marked, and addressed to a local VM. */
  function Admitted(a: Agent, etherType: u16, l3: Bytes): Option<Ip> {
    var q := ParseIp(etherType, l3);
    if q.Some? && Marked(q.value.tos) && ResponderKey(q.value.dst) in a.local then q else None
  }

  /** Transport octets of a reply that goes from `from` to `to`. */
  function EncodeL4(v6: bool, from: IP, to: IP, r: L4Reply): Bytes {
    match r
    case Echo(id, number, payload) => Icmp(v6, if v6 then ECHO_REPLY6 else ECHO_REPLY, id, number, from, to, payload)
    case Datagram(sport, dport, payload) => Udp(v6, from, to, sport, dport, payload)
    case Segment(sport, dport, seqno, ack, flags, payload) =>
      Tcp(v6, from, to, sport, dport, seqno, ack, flags, payload)
  }

  function ProtoOf(v6: bool, r: L4Reply): byte {
    match r
    case Echo(_, _, _) => if v6 then PROTO_ICMPV6 else PROTO_ICMP
    case Datagram(_, _, _) => PROTO_UDP
    case Segment(_, _, _, _, _, _) => PROTO_TCP
  }

  function EncodeL3(q: Ip, r: L4Reply): Bytes {
    IpPacket(q.v6, TOS, TTL_MAX, ProtoOf(q.v6, r), q.dst, q.src, EncodeL4(q.v6, q.dst, q.src, r))
  }

  datatype Outcome = Outcome(flows: Flows, sent: Option<Bytes>)

  function ReplyL3(a: Agent, flows: Flows, etherType: u16, l3: Bytes): Outcome {
    var q := Admitted(a, etherType, l3);
    if q.None? then Outcome(flows, None)
    else
      var p := PlanL4(a, flows, q.value);
      Outcome(p.flows, if p.reply.None? then None else Some(EncodeL3(q.value, p.reply.value)))
  }

  // ---- frames ----

  function OrVlan(inline: u16, aux: u16): u16 {
    if inline != 0 then inline else aux
  }

  function DstMac(frame: Bytes): Mac
    requires |frame| >= 14
  {
    frame[0..6]
  }

  function SrcMac(frame: Bytes): Mac
    requires |frame| >= 14
  {
    frame[6..12]
  }

  /** A packet sent back where `frame` came from, in the VLAN it came in on. */
  function SentBack(frame: Bytes, etherType: u16, vlan: u16, l3: Bytes): Bytes
    requires |frame| >= 14
  {
    FrameL2(SrcMac(frame), DstMac(frame), vlan, etherType, l3)
  }

  function HandleRegular(a: Agent, flows: Flows, frame: Bytes, aux: u16): Outcome {
    var l2 := Strip(frame);
    if l2.None? then Outcome(flows, None)
    else
      var o := ReplyL3(a, flows, l2.value.etherType, frame[l2.value.off..]);
      if o.sent.None? then o
      else o.(sent := Some(SentBack(frame, l2.value.etherType, OrVlan(l2.value.vlan, aux), o.sent.value)))
  }

  /** Same headers turned round, same VNI, same inner tag. */
  function Reencapsulate(frame: Bytes, l2: L2, aux: u16, outer: Ip, vni: u32, inner: Bytes, il2: L2,
                         reply: Bytes): Bytes
    requires |frame| >= 14 && |inner| >= 14
  {
    var innerEth := SentBack(inner, il2.etherType, il2.vlan, reply);
    var udp := Udp(outer.v6, outer.dst, outer.src, VXLAN_PORT, VXLAN_PORT, VxlanEncap(vni, innerEth));
    SentBack(frame, l2.etherType, OrVlan(l2.vlan, aux),
             IpPacket(outer.v6, 0, TTL_MAX, PROTO_UDP, outer.dst, outer.src, udp))
  }

  function HandleVxlan(a: Agent, flows: Flows, frame: Bytes, aux: u16): Outcome {
    var l2 := Strip(frame);
    if l2.None? || !ToVxlanPort(l2.value.etherType, frame[l2.value.off..]) then Outcome(flows, None)
    else
      var outer := OuterUdp(l2.value.etherType, frame[l2.value.off..]).value;
      var vx := outer.l4[8..];
      if |vx| < 8 || !HasVni(vx[0]) then Outcome(flows, None)
      else
        var inner := vx[8..];
        var il2 := Strip(inner);
        if il2.None? then Outcome(flows, None)
        else
          var o := ReplyL3(a, flows, il2.value.etherType, inner[il2.value.off..]);
          if o.sent.None? then o
          else o.(sent := Some(Reencapsulate(frame, l2.value, aux, outer, U32At(vx, 4) / 0x100, inner, il2.value,
                                             o.sent.value)))
  }

  predicate IsVxlanFrame(frame: Bytes) {
    var l2 := Strip(frame);
    l2.Some? && ToVxlanPort(l2.value.etherType, frame[l2.value.off..])
  }

  /** `handle`: AUTO commits to the encapsulated path on the outer port alone. */
  function Handle(a: Agent, flows: Flows, frame: Bytes, aux: u16): Outcome {
    if a.mode == Vxlan || (a.mode == Auto && IsVxlanFrame(frame)) then HandleVxlan(a, flows, frame, aux)
    else HandleRegular(a, flows, frame, aux)
  }
}
