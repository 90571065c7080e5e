/** agent/responder.go: the responder object, its flow table and the frames it has sent. */
module Responder {
  import opened Wire
  import opened Address
  import opened Builders
  import opened Dissect
  import opened Tfmeta
  import opened Replies

  /** `parseL2`: the loop stops at the first EtherType that is not a tag. */
  method ParseL2(frame: Bytes) returns (r: Option<L2>)
    ensures r == Strip(frame)
  {
    if |frame| < 14 { return None; }
    var etherType, vlan: u16, off := U16At(frame, 12), 0, 14;
    var n := 0;
    while n < 2 && IsTag(etherType)
      invariant 0 <= n <= 2 && 14 <= off <= |frame|
      invariant Strip(frame) == Tags(frame, off, etherType, vlan, 2 - n)
    {
      if |frame| < off + 4 { return None; }
      if vlan == 0 {
        vlan := U16At(frame, off) % 0x1000;
      }
      etherType := U16At(frame, off + 2);
      off := off + 4;
      n := n + 1;
    }
    r := Some(L2(etherType, vlan, off));
  }

  method BuildFrameL2(dst: Mac, src: Mac, vlan: u16, etherType: u16, payload: Bytes) returns (f: Bytes)
    ensures f == FrameL2(dst, src, vlan, etherType, payload)
  {
    if vlan != 0 {
      f := BuildEthernetVLAN(dst, src, vlan, etherType, payload);
    } else {
      f := BuildEthernet(dst, src, etherType, payload);
    }
  }

  method BuildIp(v6: bool, tos: byte, proto: byte, src: IP, dst: IP, payload: Bytes) returns (p: Bytes)
    ensures p == IpPacket(v6, tos, TTL_MAX, proto, src, dst, payload)
  {
    if v6 {
      p := BuildIPv6(tos, TTL_MAX, proto, src, dst, payload);
    } else {
      p := BuildIPv4(tos, TTL_MAX, proto, src, dst, payload);
    }
  }

  class Responder {
    const agent: Agent
    var flows: Flows
    var sent: seq<Bytes>

    constructor (agent: Agent)
      ensures this.agent == agent && flows == map[] && sent == []
    {
      this.agent, flows, sent := agent, map[], [];
    }

    /** The closure `mk` of `buildTCPReply`. */
    method MakeSegment(q: Ip, s: Seg, seqno: u32, ack: u32, flags: byte, payload: Bytes) returns (p: Bytes)
      ensures p == EncodeL3(q, TcpReply(s, seqno, ack, flags, payload))
    {
      hide Tcp, IpPacket;
      var seg := BuildTcp(q.v6, q.dst, q.src, s.key.dport, s.key.sport, seqno, ack, flags, payload);
      p := BuildIp(q.v6, TOS, PROTO_TCP, q.dst, q.src, seg);
    }

    /** What answering one segment does: the flow table and the packet it returns. */
    ghost predicate Answered(q: Ip, plan: Plan, p: Option<Bytes>)
      reads this
    {
      flows == plan.flows && p == if plan.reply.None? then None else Some(EncodeL3(q, plan.reply.value))
    }

    method AnswerSyn(q: Ip, s: Seg) returns (p: Option<Bytes>)
      requires !IsRST(s.flags) && Gate(agent, s.data) && Opens(s)
      modifies this`flows
      ensures Answered(q, PlanSeg(agent, old(flows), s), p)
    {
      hide EncodeL3, Gate, Sanitized, Add32, IsRST, Opens, Closes, Pushes;
      var isn := agent.isn(s.key);
      if |flows| > FLOW_CAP {
        flows := map[];
      }
      var echo := Sanitize(agent.hmac, agent.key, s.data);
      flows := flows[s.key := Add32(isn, 1 + |echo|)];
      var seg := MakeSegment(q, s, isn, Add32(s.seqno, 1), SYN_ACK, echo);
      p := Some(seg);
    }

    method AnswerFin(q: Ip, s: Seg) returns (p: Option<Bytes>)
      requires !IsRST(s.flags) && Gate(agent, s.data) && !Opens(s) && Closes(s)
      modifies this`flows
      ensures Answered(q, PlanSeg(agent, old(flows), s), p)
    {
      hide EncodeL3, Gate, Sanitized, Add32, IsRST, Opens, Closes, Pushes;
      var seqno := Add32(agent.isn(s.key), 1);
      if s.key in flows {
        seqno := flows[s.key];
      }
      flows := flows - {s.key};
      var echo := Sanitize(agent.hmac, agent.key, s.data);
      var seg := MakeSegment(q, s, seqno, Add32(s.seqno, |s.data| + 1), FIN_ACK, echo);
      p := Some(seg);
    }

    method AnswerPsh(q: Ip, s: Seg) returns (p: Option<Bytes>)
      requires !IsRST(s.flags) && Gate(agent, s.data) && !Opens(s) && !Closes(s) && Pushes(s)
      modifies this`flows
      ensures Answered(q, PlanSeg(agent, old(flows), s), p)
    {
      hide EncodeL3, Gate, Sanitized, Add32, IsRST, Opens, Closes, Pushes;
      if s.key !in flows {
        flows := flows[s.key := Add32(agent.isn(s.key), 1)];
      }
      var next := flows[s.key];
      var echo := Sanitize(agent.hmac, agent.key, s.data);
      var seg := MakeSegment(q, s, next, Add32(s.seqno, |s.data|), PSH_ACK, echo);
      flows := flows[s.key := Add32(next, |echo|)];
      assert flows == old(flows)[s.key := Add32(next, |echo|)];
      p := Some(seg);
    }

    /** The switch of `buildTCPReply`, on a segment that passed the gate. */
    method AnswerSegment(q: Ip, s: Seg) returns (p: Option<Bytes>)
      requires !IsRST(s.flags) && Gate(agent, s.data)
      modifies this`flows
      ensures Answered(q, PlanSeg(agent, old(flows), s), p)
    {
      hide EncodeL3, Gate, IsSYN, IsACK, IsFIN, IsPSH, IsRST;
      GateLength(agent, s.data);
      if IsSYN(s.flags) && !IsACK(s.flags) {
        p := AnswerSyn(q, s);
      } else if IsFIN(s.flags) {
        p := AnswerFin(q, s);
      } else if IsPSH(s.flags) && |s.data| > 0 {
        p := AnswerPsh(q, s);
      } else {
        p := None;
      }
    }

    method BuildTCPReply(q: Ip) returns (p: Option<Bytes>)
      modifies this`flows
      ensures Answered(q, PlanTcp(agent, old(flows), q), p)
    {
      hide EncodeL3, Gate;
      if !agent.tcpRespond || |q.l4| < 20 { return None; }
      var doff := q.l4[12] / 16 * 4;
      if doff < 20 || doff > |q.l4| { return None; }
      var key := FlowKey(To16(q.src), To16(q.dst), U16At(q.l4, 0), U16At(q.l4, 2));
      var s := Seg(key, U32At(q.l4, 4), q.l4[13], q.l4[doff..]);
      assert SegOf(q) == Some(s);
      if IsRST(s.flags) {
        flows := flows - {key};
        return None;
      }
      if !Gate(agent, s.data) { return None; }
      p := AnswerSegment(q, s);
    }

    method BuildReplyL4(q: Ip) returns (p: Option<Bytes>)
      modifies this`flows
      ensures Answered(q, PlanL4(agent, old(flows), q), p)
    {
      hide PlanTcp, IpPacket, Icmp, Udp;
      if q.proto == PROTO_ICMP || q.proto == PROTO_ICMPV6 {
        if |q.l4| < 8 { return None; }
        if !Gate(agent, q.l4[8..]) { return None; }
        var echo := Sanitize(agent.hmac, agent.key, q.l4[8..]);
        var icmp := BuildIcmp(q.v6, if q.v6 then ECHO_REPLY6 else ECHO_REPLY, U16At(q.l4, 4), U16At(q.l4, 6), q.dst,
                              q.src, echo);
        var l3 := BuildIp(q.v6, TOS, if q.v6 then PROTO_ICMPV6 else PROTO_ICMP, q.dst, q.src, icmp);
        return Some(l3);
      }
      if q.proto == PROTO_UDP {
        if |q.l4| < 8 { return None; }
        if !Gate(agent, q.l4[8..]) { return None; }
        var echo := Sanitize(agent.hmac, agent.key, q.l4[8..]);
        var udp := BuildUdp(q.v6, q.dst, q.src, U16At(q.l4, 2), U16At(q.l4, 0), echo);
        var l3 := BuildIp(q.v6, TOS, PROTO_UDP, q.dst, q.src, udp);
        return Some(l3);
      }
      if q.proto == PROTO_TCP {
        p := BuildTCPReply(q);
        return;
      }
      p := None;
    }

    method BuildReply(etherType: u16, l3: Bytes) returns (p: Option<Bytes>)
      modifies this`flows
      ensures var o := ReplyL3(agent, old(flows), etherType, l3);
              flows == o.flows && p == o.sent
    {
      hide PlanL4, EncodeL3, ParseIp;
      var q := ParseIp(etherType, l3);
      if q.None? || !Marked(q.value.tos) { return None; }
      if ResponderKey(q.value.dst) !in agent.local { return None; }
      p := BuildReplyL4(q.value);
    }

    /** What handling one frame does to the responder. */
    twostate predicate Did(o: Outcome)
      reads this
    {
      flows == o.flows && sent == old(sent) + if o.sent.None? then [] else [o.sent.value]
    }

    method RunRegular(frame: Bytes, aux: u16)
      modifies this
      ensures Did(HandleRegular(agent, old(flows), frame, aux))
    {
      hide ReplyL3, FrameL2, Strip;
      var l2 := ParseL2(frame);
      if l2.None? { return; }
      var reply := BuildReply(l2.value.etherType, frame[l2.value.off..]);
      if reply.Some? {
        var f := BuildFrameL2(SrcMac(frame), DstMac(frame), OrVlan(l2.value.vlan, aux), l2.value.etherType,
                              reply.value);
        sent := sent + [f];
      }
    }

    method RunVxlan(frame: Bytes, aux: u16)
      modifies this
      ensures Did(HandleVxlan(agent, old(flows), frame, aux))
    {
      hide ReplyL3, FrameL2, Strip, OuterUdp, IpPacket, Udp, VxlanEncap, HasVni;
      var l2 := ParseL2(frame);
      if l2.None? { return; }
      var u := OuterUdp(l2.value.etherType, frame[l2.value.off..]);
      if u.None? || |u.value.l4| < 8 || U16At(u.value.l4, 2) != VXLAN_PORT { return; }
      var outer := u.value;
      var vx := outer.l4[8..];
      if |vx| < 8 || !HasVni(vx[0]) { return; }
      var inner := vx[8..];
      var il2 := ParseL2(inner);
      if il2.None? { return; }
      var reply := BuildReply(il2.value.etherType, inner[il2.value.off..]);
      if reply.None? { return; }
      var innerEth := BuildFrameL2(SrcMac(inner), DstMac(inner), il2.value.vlan, il2.value.etherType, reply.value);
      var vxlan := BuildVxlan(U32At(vx, 4) / 0x100, innerEth);
      var udp := BuildUdp(outer.v6, outer.dst, outer.src, VXLAN_PORT, VXLAN_PORT, vxlan);
      var outerIp := BuildIp(outer.v6, 0, PROTO_UDP, outer.dst, outer.src, udp);
      var f := BuildFrameL2(SrcMac(frame), DstMac(frame), OrVlan(l2.value.vlan, aux), l2.value.etherType, outerIp);
      sent := sent + [f];
    }

    /** `handle` and `isVXLANFrame`. */
    method Run(frame: Bytes, aux: u16)
      modifies this
      ensures Did(Handle(agent, old(flows), frame, aux))
    {
      hide HandleVxlan, HandleRegular, OuterUdp;
      match agent.mode {
        case Vxlan =>
          RunVxlan(frame, aux);
        case Regular =>
          RunRegular(frame, aux);
        case Auto =>
          var vxlan := false;
          var l2 := ParseL2(frame);
          if l2.Some? {
            var u := OuterUdp(l2.value.etherType, frame[l2.value.off..]);
            vxlan := u.Some? && |u.value.l4| >= 8 && U16At(u.value.l4, 2) == VXLAN_PORT;
          }
          if vxlan {
            RunVxlan(frame, aux);
          } else {
            RunRegular(frame, aux);
          }
      }
    }
  }
}
