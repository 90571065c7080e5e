/**
 * The kernel drops a probe "only when this agent will answer it": exactly when that is true of the
 * two hand-written parsers, in both directions, and what goes wrong at each exception.
 */
module Agreement {
  import opened Wire
  import opened Address
  import opened Dissect
  import opened Tfmeta
  import opened Replies
  import opened Exchange
  import opened Sightings

  /** One agent's two halves, loaded with the same settings. */
  predicate SameSettings(a: Agent, env: Env) {
    && env.config.Some?
    && env.config.value.mode == a.mode
    && env.config.value.tcpRespond == a.tcpRespond
  }

  /** The classifier knows at least the responder's own addresses; in watch mode it knows every tap's. */
  ghost predicate Serves(a: Agent, env: Env, own: seq<IP>) {
    && SameSettings(a, env)
    && a.local == ResponderKeys(own)
    && KernelKeys(own) <= env.localIps
    && forall k :: k in env.localIps ==> !IsMapped(k)
  }

  function Reply(a: Agent, flows: Flows, p: Packet): Option<Bytes> {
    Handle(a, flows, p.frame, SkbVlan(p)).sent
  }

  /** TCP segments the responder has an answer for. */
  predicate AnsweredFlags(flags: byte) {
    !IsRST(flags) && ((IsSYN(flags) && !IsACK(flags)) || IsFIN(flags) || IsPSH(flags))
  }

  predicate VersionMatches(q: Ip, l3: Bytes) {
    |l3| > 0 && l3[0] / 16 == if q.v6 then 6 else 4
  }

  // ---- layer 4 ----

  lemma GateIsMark(a: Agent, q: Ip, off: nat, sport: u16, dport: u16, flags: byte)
    requires off <= |q.l4|
    ensures Gate(a, q.l4[off..]) <==>
            var m := MarkMeta(q.l4, off, q.proto, sport, dport, flags);
            m.Some? && m.value.need == 1 && m.value.deliver != 1 && Verify(a.hmac, q.l4[off..], a.key)
  {
    hide Verify;
    var p := q.l4[off..];
    if |p| >= META_SIZE {
      assert U32At(p, 0) == U32At(q.l4, off);
    }
  }

  /** The responder plans a reply exactly for what the kernel marks with the octets 1 and not-1, verified. */
  lemma PlanIsMark(a: Agent, flows: Flows, q: Ip)
    ensures PlanL4(a, flows, q).reply.Some? <==>
            var m := MarkL4(q.l4, q.proto);
            && m.Some? && m.value.need == 1 && m.value.deliver != 1
            && Verify(a.hmac, PayloadOf(q), a.key)
            && (q.proto == PROTO_TCP ==> a.tcpRespond && AnsweredFlags(q.l4[13]))
  {
    hide Gate, MarkMeta, Verify, EchoOf, IsSYN, IsACK, IsFIN, IsPSH, IsRST;
    if q.proto == PROTO_TCP {
      if |q.l4| >= 20 {
        var doff := q.l4[12] / 16 * 4;
        if doff <= |q.l4| {
          GateIsMark(a, q, doff, U16At(q.l4, 0), U16At(q.l4, 2), q.l4[13]);
        } else {
          PastEnd(q, doff);
        }
      }
    } else if |q.l4| >= 8 {
      GateIsMark(a, q, 8, 0, 0, 0);
      GateIsMark(a, q, 8, U16At(q.l4, 0), U16At(q.l4, 2), 0);
    }
  }

  lemma PastEnd(q: Ip, off: nat)
    requires off > |q.l4|
    ensures forall s: u16, d: u16, f: byte :: MarkMeta(q.l4, off, q.proto, s, d, f).None?
  {
  }

  // ---- layer 3 ----

  /** What the kernel reads at layer 3 when the transport header follows directly. */
  lemma DirectMark(etherType: u16, l3: Bytes)
    requires ParseIp(etherType, l3).Some?
    ensures var q := ParseIp(etherType, l3).value;
            (!q.v6 || !IsExt(q.proto)) ==>
            && (MarkL3(etherType, l3).Some? <==>
                Marked(q.tos) && VersionMatches(q, l3) && MarkL4(q.l4, q.proto).Some?)
            && (MarkL3(etherType, l3).Some? ==>
                var m := MarkL3(etherType, l3).value;
                m.dst == PacketKey(q.dst) && MarkL4(q.l4, q.proto) == Some(m.l4))
  {
    hide MarkL4, Marked;
  }

  /** Whatever the kernel marks, the responder parses and finds marked. */
  lemma MarkedIsParsed(etherType: u16, l3: Bytes)
    requires MarkL3(etherType, l3).Some?
    ensures ParseIp(etherType, l3).Some?
    ensures var q := ParseIp(etherType, l3).value;
            Marked(q.tos) && VersionMatches(q, l3) && MarkL3(etherType, l3).value.dst == PacketKey(q.dst)
  {
    hide MarkL4, Marked, Walk;
  }

  /** A frame the responder would treat as VXLAN is never seen as a plain one by the kernel. */
  lemma TunnelNotPlain(frame: Bytes, skbVlan: u16)
    requires VxlanBody(frame).Some?
    ensures RegularSighting(frame, skbVlan).None?
  {
    hide Strip, Marked, HasVni;
    var l2 := Strip(frame).value;
    var l3 := frame[l2.off..];
    if MarkL3(l2.etherType, l3).Some? {
      DirectMark(l2.etherType, l3);
      var q := ParseIp(l2.etherType, l3).value;
      assert MarkL4(q.l4, PROTO_UDP).Some?;
      assert U32At(q.l4, 8) == U32At(q.l4[8..], 0);
      MagicOctets(q.l4[8..]);
    }
  }

  /**
   * AUTO decides on the VXLAN header alone: once the encapsulated attempt has got as far as writing to the
   * record, the plain fallback never matches, so what a failed attempt wrote is never reported.
   */
  lemma AutoIsExclusive(frame: Bytes, skbVlan: u16)
    ensures Sight(Auto, frame, skbVlan) ==
            if VxlanBody(frame).Some? then VxlanSighting(frame) else RegularSighting(frame, skbVlan)
    ensures VxlanSighting(frame).None? || RegularSighting(frame, skbVlan).None?
  {
    hide VxlanBody, RegularSighting, MarkL3, Strip;
    if VxlanBody(frame).Some? {
      TunnelNotPlain(frame, skbVlan);
    }
  }

  /** What the classifier makes of the packet the responder would judge the frame by. */
  function TargetMark(mode: Mode, frame: Bytes): Option<Mark> {
    var t := Target(mode, frame);
    if t.None? then None else MarkL3(t.value.etherType, t.value.bytes)
  }

  function SightedMark(mode: Mode, frame: Bytes, skbVlan: u16): Option<Mark> {
    var s := Sight(mode, frame, skbVlan);
    if s.None? then None else Some(s.value.mark)
  }

  /**
   * Exactly when the classifier and the responder read the same packet of a frame. Outside AUTO they always do.
   * Under AUTO they part on a marked plain datagram to the VXLAN port without a VXLAN header, and on nothing else.
   */
  lemma SamePacketRead(mode: Mode, frame: Bytes, skbVlan: u16)
    ensures SightedMark(mode, frame, skbVlan) == TargetMark(mode, frame) <==>
            !(mode == Auto && IsVxlanFrame(frame) && VxlanBody(frame).None? && RegularSighting(frame, skbVlan).Some?)
  {
    hide MarkL3, Strip, VxlanBody, IsVxlanFrame;
    AutoIsExclusive(frame, skbVlan);
    if VxlanBody(frame).Some? {
      TunnelIsVxlanFrame(frame);
    }
  }

  lemma TunnelIsVxlanFrame(frame: Bytes)
    requires VxlanBody(frame).Some?
    ensures IsVxlanFrame(frame)
  {
    hide Strip, OuterUdp;
  }

  /** What the kernel acts on: a plain sighting with no VNI from anywhere. */
  lemma DropIsPlain(env: Env, p: Packet)
    requires Drops(env, p)
    ensures env.config.value.mode != Vxlan && VxlanBody(p.frame).None?
    ensures PlainL3(p.frame).Some?
    ensures var t := PlainL3(p.frame).value;
            && MarkL3(t.etherType, t.bytes).Some?
            && Intercepts(env.config.value, env.localIps,
                          Sighting(IFACE_REGULAR, 0, 0, MarkL3(t.etherType, t.bytes).value))
    ensures p.ifindex !in env.ifaceVni && (p.tunnelId.None? || p.tunnelId.value == 0)
  {
    hide Strip, MarkL3, VxlanBody;
    if VxlanBody(p.frame).Some? {
      TunnelNotPlain(p.frame, SkbVlan(p));
    }
  }

  // ---- the exact conditions ----

  /** When a packet the kernel has dropped is answered. */
  predicate Answerable(a: Agent, t: L3, q: Ip) {
    && (!q.v6 || !IsExt(q.proto))
    && !(a.mode == Auto && ToVxlanPort(t.etherType, t.bytes))
    && ResponderKey(q.dst) in a.local
    && |PayloadOf(q)| >= META_SIZE && PayloadOf(q)[21] == 1
    && Verify(a.hmac, PayloadOf(q), a.key)
    && (q.proto == PROTO_TCP ==> |q.l4| >= 14 && AnsweredFlags(q.l4[13]))
  }

  lemma NeedOctet(q: Ip)
    requires MarkL4(q.l4, q.proto).Some?
    ensures |PayloadOf(q)| >= META_SIZE
    ensures PayloadOf(q)[21] == MarkL4(q.l4, q.proto).value.need
    ensures PayloadOf(q)[20] == MarkL4(q.l4, q.proto).value.deliver
    ensures MarkL4(q.l4, q.proto).value.proto == q.proto
    ensures q.proto == PROTO_TCP ==> |q.l4| >= 20 && MarkL4(q.l4, q.proto).value.tcpFlags == q.l4[13]
  {
  }

  /** Behind an extension header the responder finds no transport it knows. */
  lemma ExtUnanswered(a: Agent, flows: Flows, q: Ip)
    requires IsExt(q.proto)
    ensures PlanL4(a, flows, q).reply.None?
  {
    hide Gate;
  }

  lemma ReplyByL3(a: Agent, flows: Flows, p: Packet)
    requires a.mode != Vxlan && VxlanBody(p.frame).None? && PlainL3(p.frame).Some?
    ensures var t := PlainL3(p.frame).value;
            Reply(a, flows, p).Some? <==>
            !(a.mode == Auto && ToVxlanPort(t.etherType, t.bytes)) && ReplyTo(a, flows, Some(t)).sent.Some?
  {
    hide Strip, Handle, VxlanBody, ReplyTo, ToVxlanPort;
    HandleIsReplyTo(a, flows, p.frame, SkbVlan(p));
    EmptyTarget(a, flows);
  }

  lemma EmptyTarget(a: Agent, flows: Flows)
    ensures ReplyTo(a, flows, None) == Outcome(flows, None)
  {
  }

  /** A dropped packet is answered exactly when it is Answerable. */
  lemma DroppedIsAnswered(a: Agent, flows: Flows, env: Env, p: Packet)
    requires SameSettings(a, env) && Drops(env, p)
    ensures PlainL3(p.frame).Some?
    ensures var t := PlainL3(p.frame).value;
            && ParseIp(t.etherType, t.bytes).Some?
            && (Reply(a, flows, p).Some? <==> Answerable(a, t, ParseIp(t.etherType, t.bytes).value))
  {
    hide Drops, PlainL3, VxlanBody, MarkL3, MarkL4, ParseIp, ToVxlanPort, Reply, PlanL4, Verify, PayloadOf,
      AnsweredFlags, Marked, EncodeL3;
    DropIsPlain(env, p);
    var t := PlainL3(p.frame).value;
    MarkedIsParsed(t.etherType, t.bytes);
    var q := ParseIp(t.etherType, t.bytes).value;
    ReplyByL3(a, flows, p);
    if q.v6 && IsExt(q.proto) {
      ExtUnanswered(a, flows, q);
    } else {
      DirectMark(t.etherType, t.bytes);
      NeedOctet(q);
      PlanIsMark(a, flows, q);
    }
  }

  /** When a packet the responder answers on the plain path is also dropped. */
  predicate Droppable(env: Env, p: Packet, t: L3, q: Ip) {
    && env.config.Some? && env.config.value.respond
    && VersionMatches(q, t.bytes)
    && |PayloadOf(q)| >= META_SIZE && PayloadOf(q)[20] == 0
    && !IsMapped(q.dst)
    && p.ifindex !in env.ifaceVni && (p.tunnelId.None? || p.tunnelId.value == 0)
  }

  /** `ipKey16` never yields an IPv4-mapped key. */
  lemma KernelKeysUnmapped(ips: seq<IP>)
    ensures forall k :: k in KernelKeys(ips) ==> !IsMapped(k)
  {
    forall i | 0 <= i < |ips| ensures !IsMapped(KernelKey(ips[i])) {
      if To4(ips[i]).Some? {
        assert KernelKey(ips[i])[10] == 0;
      }
    }
  }

  lemma DropsByL3(env: Env, p: Packet)
    requires env.config.Some? && env.config.value.mode != Vxlan && VxlanBody(p.frame).None? && PlainL3(p.frame).Some?
    ensures var t := PlainL3(p.frame).value;
            Drops(env, p) <==>
            && MarkL3(t.etherType, t.bytes).Some?
            && Intercepts(env.config.value, env.localIps,
                          Sighting(IFACE_REGULAR, 0, 0, MarkL3(t.etherType, t.bytes).value))
            && p.ifindex !in env.ifaceVni && (p.tunnelId.None? || p.tunnelId.value == 0)
  {
    hide Strip, MarkL3, VxlanBody;
  }

  /** A packet answered on the plain path is dropped exactly when it is Droppable. */
  lemma AnsweredIsDropped(a: Agent, flows: Flows, env: Env, own: seq<IP>, p: Packet)
    requires Serves(a, env, own) && Reply(a, flows, p).Some?
    requires a.mode != Vxlan && VxlanBody(p.frame).None?
    ensures PlainL3(p.frame).Some?
    ensures var t := PlainL3(p.frame).value;
            && ParseIp(t.etherType, t.bytes).Some?
            && (Drops(env, p) <==> Droppable(env, p, t, ParseIp(t.etherType, t.bytes).value))
  {
    hide Drops, PlainL3, VxlanBody, MarkL3, MarkL4, ParseIp, ToVxlanPort, Reply, PlanL4, Verify, PayloadOf,
      AnsweredFlags, Marked, EncodeL3, KernelKeys, ResponderKeys, VersionMatches, IsMapped, Collides;
    RepliesParse(a, flows, p);
    ReplyByL3(a, flows, p);
    var t := PlainL3(p.frame).value;
    var q := ParseIp(t.etherType, t.bytes).value;
    PlanIsMark(a, flows, q);
    NeedOctet(q);
    NotExt(q);
    DirectMark(t.etherType, t.bytes);
    DropsByL3(env, p);
    LocalSetsDiffer(own, q.dst);
    if IsMapped(q.dst) {
      MappedKey(q.dst);
    }
  }

  lemma MappedKey(dst: IP)
    requires IsMapped(dst)
    ensures PacketKey(dst) == dst
  {
  }

  lemma NotExt(q: Ip)
    requires MarkL4(q.l4, q.proto).Some?
    ensures !IsExt(q.proto)
  {
  }

  lemma RepliesParse(a: Agent, flows: Flows, p: Packet)
    requires Reply(a, flows, p).Some? && a.mode != Vxlan && VxlanBody(p.frame).None?
    ensures PlainL3(p.frame).Some?
  {
    hide VxlanBody, ReplyL3, Handle, Strip;
    HandleIsReplyTo(a, flows, p.frame, SkbVlan(p));
  }

  /** A packet answered inside its encapsulation is never dropped: transit nodes keep the trace intact. */
  lemma TunnelAnsweredNotDropped(env: Env, p: Packet)
    requires VxlanBody(p.frame).Some?
    ensures !Drops(env, p)
  {
    hide Strip, MarkL3, VxlanBody, RegularSighting;
    TunnelNotPlain(p.frame, SkbVlan(p));
  }

  // ---- agreement ----

  /** The destination is local to the host, but not to this responder. */
  predicate Foreign(env: Env, own: seq<IP>, dst: IP) {
    PacketKey(dst) in env.localIps && PacketKey(dst) !in KernelKeys(own)
  }

  /** The conditions under which the two halves always agree about a plain packet. */
  predicate Aligned(a: Agent, env: Env, own: seq<IP>, p: Packet, t: L3, q: Ip) {
    && env.config.Some? && env.config.value.respond
    && p.ifindex !in env.ifaceVni && (p.tunnelId.None? || p.tunnelId.value == 0)
    && VersionMatches(q, t.bytes)
    && (!q.v6 || !IsExt(q.proto))
    && !(a.mode == Auto && ToVxlanPort(t.etherType, t.bytes))
    && !Foreign(env, own, q.dst) && !Collides(own, q.dst) && !IsMapped(q.dst)
    && (|PayloadOf(q)| >= META_SIZE ==> PayloadOf(q)[20] <= 1 && PayloadOf(q)[21] <= 1)
    && Verify(a.hmac, PayloadOf(q), a.key)
    && (q.proto == PROTO_TCP && |q.l4| >= 14 ==> AnsweredFlags(q.l4[13]))
  }

  /** Drop and answer agree on every aligned packet of the plain path. */
  lemma DropIffAnswer(a: Agent, flows: Flows, env: Env, own: seq<IP>, p: Packet)
    requires Serves(a, env, own) && a.mode != Vxlan && VxlanBody(p.frame).None?
    requires PlainL3(p.frame).Some? ==>
               var t := PlainL3(p.frame).value;
               ParseIp(t.etherType, t.bytes).Some? ==> Aligned(a, env, own, p, t, ParseIp(t.etherType, t.bytes).value)
    ensures Drops(env, p) <==> Reply(a, flows, p).Some?
  {
    hide PlainL3, VxlanBody, MarkL3, MarkL4, ParseIp, ToVxlanPort, PlanL4, Verify, PayloadOf, AnsweredFlags, Marked,
      EncodeL3, KernelKeys, ResponderKeys, VersionMatches, IsMapped, Collides, Drops, Reply;
    if Reply(a, flows, p).Some? {
      AnsweredIsDropped(a, flows, env, own, p);
      OctetsPresent(a, flows, p);
    }
    if Drops(env, p) {
      DroppedIsAnswered(a, flows, env, p);
      DropIsPlain(env, p);
      var t := PlainL3(p.frame).value;
      MarkedIsParsed(t.etherType, t.bytes);
      var q := ParseIp(t.etherType, t.bytes).value;
      DirectMark(t.etherType, t.bytes);
      NeedOctet(q);
      LocalSetsDiffer(own, q.dst);
    }
  }

  lemma OctetsPresent(a: Agent, flows: Flows, p: Packet)
    requires Reply(a, flows, p).Some? && a.mode != Vxlan && VxlanBody(p.frame).None? && PlainL3(p.frame).Some?
    ensures var t := PlainL3(p.frame).value;
            && ParseIp(t.etherType, t.bytes).Some?
            && var q := ParseIp(t.etherType, t.bytes).value;
            |PayloadOf(q)| >= META_SIZE && PayloadOf(q)[20] != 1 && PayloadOf(q)[21] == 1
  {
    hide PlainL3, VxlanBody, MarkL4, ParseIp, ToVxlanPort, PlanL4, Verify, PayloadOf, AnsweredFlags, Marked,
      EncodeL3, Reply;
    ReplyByL3(a, flows, p);
    var t := PlainL3(p.frame).value;
    var q := ParseIp(t.etherType, t.bytes).value;
    PlanIsMark(a, flows, q);
    NeedOctet(q);
  }
}
