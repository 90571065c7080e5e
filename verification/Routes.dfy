/** Echo across routers: what the client and the responder read does not depend on the way between them. */
module Routes {
  import opened Wire
  import opened Address
  import opened Builders
  import opened Dissect
  import opened Tfmeta
  import opened Replies
  import opened Exchange
  import opened Sniffer
  import opened Journey
  import Sightings
  import Agreement
  import E = Echo

  /** A bridged or routed step changes nothing that the Go parsers look at. */
  lemma StepKeepsParse(v6: bool, before: Bytes, after: Bytes, routed: bool)
    requires Step(v6, before, after, routed)
    ensures ParseIp(EtherOf(v6), after) == ParseIp(EtherOf(v6), before)
  {
    if v6 && |before| >= 40 {
      assert after[8..24] == before[8..24] && after[24..40] == before[24..40] && after[40..] == before[40..];
    } else if !v6 && |before| >= 20 {
      var ihl := before[0] % 16 * 4;
      assert after[12..16] == before[12..16] && after[16..20] == before[16..20];
      if 20 <= ihl <= |before| {
        assert after[ihl..] == before[ihl..];
      }
    }
  }

  lemma {:induction false} WayKeepsParse(v6: bool, l3s: seq<Bytes>, steps: seq<bool>, i: nat)
    requires Travels(v6, l3s, steps) && i < |l3s|
    ensures ParseIp(EtherOf(v6), l3s[i]) == ParseIp(EtherOf(v6), l3s[0])
  {
    hide ParseIp, Step;
    if i > 0 {
      WayKeepsParse(v6, l3s, steps, i - 1);
      StepKeepsParse(v6, l3s[i - 1], l3s[i], steps[i - 1]);
    }
  }

  /** The responder anywhere along the way does what it would do with the packet as sent. */
  lemma RoutedReply(a: Agent, flows: Flows, v6: bool, l3s: seq<Bytes>, steps: seq<bool>, i: nat)
    requires Travels(v6, l3s, steps) && i < |l3s|
    ensures ReplyTo(a, flows, Some(L3(EtherOf(v6), l3s[i]))) == ReplyTo(a, flows, Some(L3(EtherOf(v6), l3s[0])))
  {
    hide ParseIp, PlanL4, EncodeL3, Travels, Marked;
    WayKeepsParse(v6, l3s, steps, i);
  }

  /** The sniffer anywhere along the way captures what it would capture of the packet as sent. */
  lemma RoutedCapture(vni: u32, v6: bool, l3s: seq<Bytes>, steps: seq<bool>, i: nat)
    requires Travels(v6, l3s, steps) && i < |l3s|
    ensures CaptureL3(vni, EtherOf(v6), l3s[i]) == CaptureL3(vni, EtherOf(v6), l3s[0])
    ensures ToVxlanPort(EtherOf(v6), l3s[i]) <==> ToVxlanPort(EtherOf(v6), l3s[0])
  {
    hide ParseIp, PayloadOffset, Unmarshal, Travels, Marked;
    WayKeepsParse(v6, l3s, steps, i);
  }

  function Last(s: seq<Bytes>): Bytes
    requires s != []
  {
    s[|s| - 1]
  }

  /** A frame around the packet at the end of a way. */
  ghost predicate Delivers(f: Bytes, v6: bool, l3s: seq<Bytes>) {
    l3s != [] && PlainL3(f) == Some(L3(EtherOf(v6), Last(l3s)))
  }

  /** The responder takes a plain packet of its mode: any in REGULAR, under AUTO all but those to the VXLAN port. */
  predicate TakesPlain(mode: Mode, t: L3) {
    mode == Regular || (mode == Auto && !ToVxlanPort(t.etherType, t.bytes))
  }

  /** The responder at the far end of a way, against the packet as it was sent. */
  lemma FarReply(a: Agent, flows: Flows, far: Bytes, aux: u16, v6: bool, there: seq<Bytes>, steps: seq<bool>)
    requires Travels(v6, there, steps) && Delivers(far, v6, there) && Sightings.VxlanBody(far).None?
    ensures var o, t := Handle(a, flows, far, aux), L3(EtherOf(v6), there[0]);
            var sent := ReplyTo(a, flows, Some(t));
            && (o.sent.Some? <==> TakesPlain(a.mode, t) && sent.sent.Some?)
            && (o.sent.Some? ==> o.flows == sent.flows)
            && (o.sent.Some? ==> PlainL3(o.sent.value) == Some(L3(t.etherType, sent.sent.value)))
            && (!TakesPlain(a.mode, t) ==> o == Outcome(flows, None))
  {
    hide ReplyTo, Handle, HandleRegular, HandleVxlan, PlainL3, Travels, ToVxlanPort, Strip, Sightings.VxlanBody,
      IsVxlanFrame, ReplyL3, ParseIp, Marked, CaptureL3, OrVlan, EtherOf;
    var t := L3(EtherOf(v6), there[0]);
    RoutedReply(a, flows, v6, there, steps, |there| - 1);
    RoutedCapture(0, v6, there, steps, |there| - 1);
    HandleIsReplyTo(a, flows, far, aux);
    Agreement.EmptyTarget(a, flows);
    PortOf(far);
    if TakesPlain(a.mode, t) && ReplyTo(a, flows, Some(t)).sent.Some? {
      E.PlainHandle(a, flows, far, aux);
      EmittedPlain(a, flows, far, aux);
    }
  }

  lemma PortOf(f: Bytes)
    requires PlainL3(f).Some?
    ensures IsVxlanFrame(f) <==> ToVxlanPort(PlainL3(f).value.etherType, PlainL3(f).value.bytes)
  {
    hide ToVxlanPort, Strip;
  }

  /** The way back starts with the reply packet sent at the end of the way out, and ends in frame `home`. */
  ghost predicate ComesHome(a: Agent, flows: Flows, far: Bytes, aux: u16, v6: bool, back: seq<Bytes>, steps: seq<bool>,
                            home: Bytes) {
    && Travels(v6, back, steps) && Delivers(home, v6, back)
    && var sent := Handle(a, flows, far, aux).sent;
    && sent.Some? && PlainL3(sent.value) == Some(L3(EtherOf(v6), back[0]))
  }

  lemma DeliveredCapture(f: Bytes, v6: bool, l3s: seq<Bytes>, steps: seq<bool>)
    requires Travels(v6, l3s, steps) && Delivers(f, v6, l3s) && !ToVxlanPort(EtherOf(v6), l3s[0])
    ensures Captured(f) == CaptureL3(0, EtherOf(v6), l3s[0])
  {
    hide CaptureL3, PlainL3, Captured, Travels, ToVxlanPort;
    RoutedCapture(0, v6, l3s, steps, |l3s| - 1);
    E.PlainCapture(f);
  }

  /** An ICMP or ICMPv6 probe as it leaves the client. */
  function IcmpSent(a: Agent, src: IP, dst: IP, m: Meta): Bytes {
    E.IcmpL3(src, dst, Signed(a.hmac, m, a.key))
  }

  /** A UDP probe as it leaves the client. */
  function UdpSent(a: Agent, src: IP, dst: IP, sport: u16, dport: u16, m: Meta): Bytes {
    E.UdpL3(src, dst, sport, dport, Signed(a.hmac, m, a.key))
  }

  /** The reply packet to an ICMP probe as sent, and its capture. */
  lemma IcmpReplyPacket(a: Agent, flows: Flows, src: IP, dst: IP, m: Meta)
    requires E.Served(a, dst, m)
    ensures var o := ReplyTo(a, flows, Some(L3(EtherOf(IsV6(dst)), IcmpSent(a, src, dst, m))));
            && o.flows == flows && o.sent.Some?
            && !ToVxlanPort(EtherOf(IsV6(dst)), o.sent.value)
            && CaptureL3(0, EtherOf(IsV6(dst)), o.sent.value) == Some(E.IcmpReply(a, 0, dst, m))
  {
    hide E.ProbeL3, EncodeL3, CaptureL3, Signed, ReplyL3, EchoOf, Unmarshal, ToVxlanPort, E.IcmpL3, E.IcmpL4;
    var v6, l4 := IsV6(dst), E.IcmpL4(a, src, dst, m);
    E.IcmpL4Fields(a, src, dst, m);
    E.ProbeReply(a, flows, E.IcmpProto(v6), src, dst, l4, m);
    var q := E.Arrived(E.IcmpProto(v6), src, dst, l4);
    var r := Replies.Echo(U16At(l4, 4), U16At(l4, 6), EchoOf(a, l4[8..]));
    CaptureReply(0, q, r);
    E.ReplyPort(q, r);
    E.FieldIsLocal(a, dst);
    E.RepeatedField(v6, dst);
  }

  /** The reply packet to a UDP probe as sent, and its capture. */
  lemma UdpReplyPacket(a: Agent, flows: Flows, src: IP, dst: IP, sport: u16, dport: u16, m: Meta)
    requires E.Served(a, dst, m)
    ensures var o := ReplyTo(a, flows, Some(L3(EtherOf(IsV6(dst)), UdpSent(a, src, dst, sport, dport, m))));
            && o.flows == flows && o.sent.Some?
            && (ToVxlanPort(EtherOf(IsV6(dst)), o.sent.value) <==> sport == VXLAN_PORT)
            && CaptureL3(0, EtherOf(IsV6(dst)), o.sent.value) == Some(E.UdpReply(a, dst, sport, dport, m))
  {
    hide E.ProbeL3, EncodeL3, CaptureL3, Signed, ReplyL3, EchoOf, Unmarshal, ToVxlanPort, Udp;
    var v6 := IsV6(dst);
    var l4 := Udp(v6, src, dst, sport, dport, Signed(a.hmac, m, a.key));
    E.ProbeReply(a, flows, PROTO_UDP, src, dst, l4, m);
    var q := E.Arrived(PROTO_UDP, src, dst, l4);
    var r := Datagram(dport, sport, EchoOf(a, l4[8..]));
    CaptureReply(0, q, r);
    E.ReplyPort(q, r);
    E.FieldIsLocal(a, dst);
    E.RepeatedField(v6, dst);
  }

  /** A signed probe is no VXLAN body at the far end either. */
  lemma NoBodyThere(f: Bytes, v6: bool, l3s: seq<Bytes>, steps: seq<bool>, q: Ip)
    requires Travels(v6, l3s, steps) && Delivers(f, v6, l3s) && ParseIp(EtherOf(v6), l3s[0]) == Some(q)
    requires q.proto == PROTO_UDP ==> |q.l4| >= 9 && !HasVni(q.l4[8])
    ensures Sightings.VxlanBody(f).None?
  {
    hide ParseIp, HasVni, Strip, Travels;
    WayKeepsParse(v6, l3s, steps, |l3s| - 1);
  }

  lemma IcmpNoBody(a: Agent, src: IP, dst: IP, m: Meta, f: Bytes, there: seq<Bytes>, steps: seq<bool>)
    requires Travels(IsV6(dst), there, steps) && there[0] == IcmpSent(a, src, dst, m) && Delivers(f, IsV6(dst), there)
    ensures Sightings.VxlanBody(f).None? && !ToVxlanPort(EtherOf(IsV6(dst)), there[0])
  {
    hide Travels, Delivers, ParseIp, IpPacket, Signed, Sightings.VxlanBody, Icmp;
    var v6, l4 := IsV6(dst), E.IcmpL4(a, src, dst, m);
    E.IcmpL4Fields(a, src, dst, m);
    ParseIpPacket(v6, TOS, TTL_MAX, E.IcmpProto(v6), src, dst, l4);
    NoBodyThere(f, v6, there, steps, E.Arrived(E.IcmpProto(v6), src, dst, l4));
  }

  lemma UdpNoBody(
      a: Agent, src: IP, dst: IP, sport: u16, dport: u16, m: Meta, f: Bytes, there: seq<Bytes>, steps: seq<bool>)
    requires Travels(IsV6(dst), there, steps) && there[0] == UdpSent(a, src, dst, sport, dport, m)
    requires Delivers(f, IsV6(dst), there)
    ensures Sightings.VxlanBody(f).None?
    ensures ToVxlanPort(EtherOf(IsV6(dst)), there[0]) <==> dport == VXLAN_PORT
  {
    hide Travels, Delivers, ParseIp, IpPacket, Signed, Sightings.VxlanBody, Udp, HasVni;
    var v6 := IsV6(dst);
    var payload := Signed(a.hmac, m, a.key);
    var l4 := Udp(v6, src, dst, sport, dport, payload);
    ParseIpPacket(v6, TOS, TTL_MAX, PROTO_UDP, src, dst, l4);
    E.SignedStart(a, m);
    assert l4[8] == l4[8..][0] == payload[0];
    NoBodyThere(f, v6, there, steps, E.Arrived(PROTO_UDP, src, dst, l4));
  }

  /** Nobody is asked: nothing comes back from any distance. */
  lemma IcmpIgnored(a: Agent, flows: Flows, src: IP, dst: IP, m: Meta)
    requires !E.Served(a, dst, m)
    ensures ReplyTo(a, flows, Some(L3(EtherOf(IsV6(dst)), IcmpSent(a, src, dst, m)))).sent.None?
  {
    hide E.ProbeL3, Signed, ReplyL3, Icmp, E.Served;
    E.IcmpL4Fields(a, src, dst, m);
    E.ProbeIgnored(a, flows, E.IcmpProto(IsV6(dst)), src, dst, E.IcmpL4(a, src, dst, m), m);
  }

  lemma UdpIgnored(a: Agent, flows: Flows, src: IP, dst: IP, sport: u16, dport: u16, m: Meta)
    requires !E.Served(a, dst, m)
    ensures ReplyTo(a, flows, Some(L3(EtherOf(IsV6(dst)), UdpSent(a, src, dst, sport, dport, m)))).sent.None?
  {
    hide E.ProbeL3, Signed, ReplyL3, Udp, E.Served;
    var l4 := Udp(IsV6(dst), src, dst, sport, dport, Signed(a.hmac, m, a.key));
    E.ProbeIgnored(a, flows, PROTO_UDP, src, dst, l4, m);
  }

  /**
   * ICMP echo across any way out and any way back, over either family: the responder at the far end answers exactly
   * when it would next to the client, and whatever frame brings the reply home is captured as the same reply.
   */
  lemma RoutedIcmpEcho(
      a: Agent, flows: Flows, aux: u16, src: IP, dst: IP, m: Meta, there: seq<Bytes>, steps: seq<bool>, far: Bytes,
      back: seq<Bytes>, steps2: seq<bool>, home: Bytes)
    requires Travels(IsV6(dst), there, steps) && there[0] == IcmpSent(a, src, dst, m) && Delivers(far, IsV6(dst), there)
    ensures Handle(a, flows, far, aux).sent.Some? <==> a.mode != Vxlan && E.Served(a, dst, m)
    ensures ComesHome(a, flows, far, aux, IsV6(dst), back, steps2, home) ==>
              Captured(home) == Some(E.IcmpReply(a, 0, dst, m)) && Matches(home, m.id, E.AcceptEcho())
  {
    hide ReplyTo, Handle, Captured, CaptureL3, IcmpSent, E.IcmpReply, Travels, ToVxlanPort, Delivers, E.IsEchoReply,
      E.Served, PlainL3;
    IcmpNoBody(a, src, dst, m, far, there, steps);
    FarReply(a, flows, far, aux, IsV6(dst), there, steps);
    if E.Served(a, dst, m) {
      IcmpReplyPacket(a, flows, src, dst, m);
      IcmpAccepted(a, src, dst, m);
      if ComesHome(a, flows, far, aux, IsV6(dst), back, steps2, home) {
        DeliveredCapture(home, IsV6(dst), back, steps2);
      }
    } else {
      IcmpIgnored(a, flows, src, dst, m);
    }
  }

  lemma IcmpAccepted(a: Agent, src: IP, dst: IP, m: Meta)
    ensures E.IsEchoReply(E.IcmpReply(a, 0, dst, m)) && E.IcmpReply(a, 0, dst, m).meta.id == m.id
  {
    hide Signed, EchoOf;
    E.IcmpTests(a, 0, src, dst, m);
  }

  /**
   * UDP echo across any way out and any way back: answered exactly when it would be next to the client, and brought
   * home as the same reply, readable exactly when the client's port is not 4789.
   */
  lemma RoutedUdpEcho(
      a: Agent, flows: Flows, aux: u16, src: IP, dst: IP, sport: u16, dport: u16, m: Meta, there: seq<Bytes>,
      steps: seq<bool>, far: Bytes, back: seq<Bytes>, steps2: seq<bool>, home: Bytes)
    requires Travels(IsV6(dst), there, steps) && there[0] == UdpSent(a, src, dst, sport, dport, m)
    requires Delivers(far, IsV6(dst), there)
    ensures Handle(a, flows, far, aux).sent.Some? <==>
            a.mode != Vxlan && (a.mode == Auto ==> dport != VXLAN_PORT) && E.Served(a, dst, m)
    ensures ComesHome(a, flows, far, aux, IsV6(dst), back, steps2, home) ==>
              && Captured(home) == (if sport == VXLAN_PORT then None else Some(E.UdpReply(a, dst, sport, dport, m)))
              && (Matches(home, m.id, E.AcceptUdp(sport)) <==> sport != VXLAN_PORT)
  {
    hide ReplyTo, Handle, Captured, CaptureL3, UdpSent, Signed, EchoOf, Travels, ToVxlanPort, PlainL3, E.Served;
    var v6 := IsV6(dst);
    UdpNoBody(a, src, dst, sport, dport, m, far, there, steps);
    FarReply(a, flows, far, aux, v6, there, steps);
    if E.Served(a, dst, m) {
      UdpReplyPacket(a, flows, src, dst, sport, dport, m);
      if ComesHome(a, flows, far, aux, v6, back, steps2, home) {
        if sport == VXLAN_PORT {
          UnreadableHome(a, flows, v6, there[0], back, steps2, home);
        } else {
          DeliveredCapture(home, v6, back, steps2);
        }
      }
    } else {
      UdpIgnored(a, flows, src, dst, sport, dport, m);
    }
  }

  /** A reply datagram to port 4789 is neither plain nor VXLAN to the sniffer, at any distance. */
  lemma UnreadableHome(
      a: Agent, flows: Flows, v6: bool, l3: Bytes, back: seq<Bytes>, steps: seq<bool>, home: Bytes)
    requires ReplyTo(a, flows, Some(L3(EtherOf(v6), l3))).sent.Some? && Travels(v6, back, steps)
    requires back[0] == ReplyTo(a, flows, Some(L3(EtherOf(v6), l3))).sent.value && Delivers(home, v6, back)
    requires ToVxlanPort(EtherOf(v6), back[0])
    ensures Captured(home).None?
  {
    hide ReplyTo, Captured, Travels, ToVxlanPort, PlainL3, Quiet, ParseIp;
    ReplyToIsQuiet(a, flows, L3(EtherOf(v6), l3));
    WayKeepsParse(v6, back, steps, |back| - 1);
    RoutedCapture(0, v6, back, steps, |back| - 1);
    NothingCaptured(home);
  }

  lemma NothingCaptured(f: Bytes)
    requires QuietFrame(f) && ToVxlanPort(PlainL3(f).value.etherType, PlainL3(f).value.bytes)
    ensures Captured(f).None?
  {
    hide ToVxlanPort, Strip, Quiet, ParseIp, CaptureL3;
    NotVxlanBody(f);
  }
}
