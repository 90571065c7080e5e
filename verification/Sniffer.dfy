/** client/sniffer.go: decoding captured frames, and the loop that waits for a reply. */
module Sniffer {
  import opened Wire
  import opened Address
  import opened Dissect
  import opened Tfmeta
  import opened Replies
  import opened Exchange
  import Sightings

  /** `capture`. The printed source address is kept as the To16 form it determines. */
  datatype Capture = Capture(
    proto: byte, icmpType: byte, srcPort: u16, dstPort: u16, tcpFlags: byte, tcpSeq: u32, vni: u32,
    srcIP: Addr16, payload: Bytes, meta: Meta)

  /** What layer 3 decodes to, under a VNI already read. */
  function CaptureL3(vni: u32, etherType: u16, l3: Bytes): Option<Capture> {
    var p := ParseIp(etherType, l3);
    if p.None? || !Marked(p.value.tos) then None
    else
      var q := p.value;
      var off := PayloadOffset(q.proto, q.l4);
      if off.None? then None
      else
        var payload := q.l4[off.value..];
        var m := Unmarshal(payload);
        if m.None? then None
        else
          var icmp := q.proto == PROTO_ICMP || q.proto == PROTO_ICMPV6;
          var tcp := q.proto == PROTO_TCP;
          Some(Capture(
            q.proto, if icmp then q.l4[0] else 0,
            if icmp then 0 else U16At(q.l4, 0), if icmp then 0 else U16At(q.l4, 2),
            if tcp then q.l4[13] else 0, if tcp then U32At(q.l4, 4) else 0,
            vni, To16(q.src), payload, m.value))
  }

  /** DSCP 62, a whole transport header, and a control block that starts with "TFLO" behind it. */
  predicate IsProbe(q: Ip) {
    && q.tos as int / 4 == 62
    && PayloadOffset(q.proto, q.l4).Some?
    && |PayloadOf(q)| >= 30 && PayloadOf(q)[..4] == [0x54, 0x46, 0x4C, 0x4F]
  }

  /** Exactly which packets the sniffer decodes. */
  lemma CapturedExactly(vni: u32, etherType: u16, l3: Bytes)
    ensures CaptureL3(vni, etherType, l3).Some? ==>
              ParseIp(etherType, l3).Some? && IsProbe(ParseIp(etherType, l3).value)
    ensures ParseIp(etherType, l3).Some? && IsProbe(ParseIp(etherType, l3).value) ==>
              CaptureL3(vni, etherType, l3).Some?
  {
    hide ParseIp, PayloadOffset;
    if ParseIp(etherType, l3).Some? && |PayloadOf(ParseIp(etherType, l3).value)| >= 4 {
      MagicOctets(PayloadOf(ParseIp(etherType, l3).value));
    }
  }

  function VniOf(frame: Bytes): u32 {
    var vx := Sightings.VxlanBody(frame);
    if vx.None? then 0 else U32At(vx.value, 4) / 0x100
  }

  /** The sniffer reads a frame as the responder's AUTO mode does. */
  function Captured(frame: Bytes): Option<Capture> {
    var t := Target(Auto, frame);
    if t.None? then None else CaptureL3(VniOf(frame), t.value.etherType, t.value.bytes)
  }

  /** `stripL2`. */
  method StripL2(frame: Bytes) returns (ok: bool, l3: Bytes, etherType: u16, vlan: u16)
    ensures ok == Strip(frame).Some?
    ensures ok ==> |l3| <= |frame| && l3 == frame[|frame| - |l3|..]
    ensures ok ==> Strip(frame) == Some(L2(etherType, vlan, |frame| - |l3|))
  {
    l3, etherType, vlan := [], 0, 0;
    if |frame| < 14 { return false, l3, etherType, vlan; }
    etherType := U16At(frame, 12);
    var off := 14;
    var n := 0;
    while n < 2 && IsTag(etherType)
      invariant 0 <= n <= 2 && 14 <= off <= |frame|
      invariant Strip(frame) == Tags(frame, off, etherType, vlan, 2 - n)
    {
      if |frame| < off + 4 { return false, l3, etherType, vlan; }
      if vlan == 0 {
        vlan := U16At(frame, off) % 0x1000;
      }
      etherType := U16At(frame, off + 2);
      off := off + 4;
      n := n + 1;
    }
    ok, l3 := true, frame[off..];
  }

  /** The transport fields `l4Fields` writes, and the payload it returns. */
  datatype L4Fields = L4Fields(icmpType: byte, srcPort: u16, dstPort: u16, tcpFlags: byte, tcpSeq: u32, payload: Bytes)

  method ReadL4Fields(proto: byte, l4: Bytes) returns (r: Option<L4Fields>)
    ensures r.Some? <==> PayloadOffset(proto, l4).Some?
    ensures r.Some? ==>
              var icmp := proto == PROTO_ICMP || proto == PROTO_ICMPV6;
              r.value == L4Fields(
                if icmp then l4[0] else 0, if icmp then 0 else U16At(l4, 0), if icmp then 0 else U16At(l4, 2),
                if proto == PROTO_TCP then l4[13] else 0, if proto == PROTO_TCP then U32At(l4, 4) else 0,
                l4[PayloadOffset(proto, l4).value..])
  {
    if proto == PROTO_ICMP || proto == PROTO_ICMPV6 {
      if |l4| < 8 { return None; }
      return Some(L4Fields(l4[0], 0, 0, 0, 0, l4[8..]));
    }
    if proto == PROTO_UDP {
      if |l4| < 8 { return None; }
      return Some(L4Fields(0, U16At(l4, 0), U16At(l4, 2), 0, 0, l4[8..]));
    }
    if proto == PROTO_TCP {
      if |l4| < 20 { return None; }
      var doff := l4[12] / 16 * 4;
      if doff < 20 || doff > |l4| { return None; }
      return Some(L4Fields(0, U16At(l4, 0), U16At(l4, 2), l4[13], U32At(l4, 4), l4[doff..]));
    }
    r := None;
  }

  method DecodeL3(vni: u32, etherType: u16, l3: Bytes) returns (c: Option<Capture>)
    ensures c == CaptureL3(vni, etherType, l3)
  {
    hide ParseIp, PayloadOffset, Unmarshal, Marked;
    var p := ParseIp(etherType, l3);
    if p.None? || !Marked(p.value.tos) { return None; }
    var q := p.value;
    var f := ReadL4Fields(q.proto, q.l4);
    if f.None? { return None; }
    var m := Unmarshal(f.value.payload);
    if m.None? { return None; }
    var l := f.value;
    c := Some(Capture(q.proto, l.icmpType, l.srcPort, l.dstPort, l.tcpFlags, l.tcpSeq, vni, To16(q.src), l.payload,
                      m.value));
  }

  method ParseMarked(frame: Bytes) returns (c: Option<Capture>)
    ensures c == Captured(frame)
  {
    hide Strip, OuterUdp, CaptureL3, HasVni;
    var ok, l3, et, vlan := StripL2(frame);
    if !ok { return None; }
    var vni: u32 := 0;
    var u := OuterUdp(et, l3);
    if u.Some? && |u.value.l4| >= 8 && U16At(u.value.l4, 2) == VXLAN_PORT {
      var vx := u.value.l4[8..];
      if |vx| < 8 || !HasVni(vx[0]) { return None; }
      vni := U32At(vx, 4) / 0x100;
      ok, l3, et, vlan := StripL2(vx[8..]);
      if !ok { return None; }
    }
    c := DecodeL3(vni, et, l3);
  }

  /** A capture of this run that satisfies the caller's predicate. */
  predicate Matches(frame: Bytes, id: RunId, accept: Capture -> bool) {
    Captured(frame).Some? && Captured(frame).value.meta.id == id && accept(Captured(frame).value)
  }

  /** `recvMatch` over the frames that arrive before the deadline: the first match, if any. */
  method RecvMatch(arrivals: seq<Bytes>, id: RunId, accept: Capture -> bool) returns (found: Option<nat>)
    ensures found.Some? ==>
              && found.value < |arrivals| && Matches(arrivals[found.value], id, accept)
              && forall j :: 0 <= j < found.value ==> !Matches(arrivals[j], id, accept)
    ensures found.None? ==> forall j :: 0 <= j < |arrivals| ==> !Matches(arrivals[j], id, accept)
  {
    hide Captured;
    for i := 0 to |arrivals|
      invariant forall j :: 0 <= j < i ==> !Matches(arrivals[j], id, accept)
    {
      var c := ParseMarked(arrivals[i]);
      if c.Some? && c.value.meta.id == id && accept(c.value) {
        return Some(i);
      }
    }
    found := None;
  }

  /** The first capture of this run that satisfies the predicate. */
  function FirstMatch(arrivals: seq<Bytes>, id: RunId, accept: Capture -> bool): Option<Capture> {
    if arrivals == [] then None
    else if Matches(arrivals[0], id, accept) then Captured(arrivals[0])
    else FirstMatch(arrivals[1..], id, accept)
  }

  lemma {:induction false} FirstMatchAt(arrivals: seq<Bytes>, id: RunId, accept: Capture -> bool, n: nat)
    requires n <= |arrivals| && forall j :: 0 <= j < n ==> !Matches(arrivals[j], id, accept)
    ensures FirstMatch(arrivals, id, accept) ==
            if n == |arrivals| then None
            else if Matches(arrivals[n], id, accept) then Captured(arrivals[n])
            else FirstMatch(arrivals[n..], id, accept)
  {
    hide Captured, Matches;
    if n > 0 {
      FirstMatchAt(arrivals[1..], id, accept, n - 1);
      assert arrivals[1..][n - 1..] == arrivals[n..];
    } else {
      assert arrivals[0..] == arrivals;
    }
  }

  /** What is reported is of the run and passes the test. */
  lemma {:induction false} MatchIsOwnRun(arrivals: seq<Bytes>, id: RunId, accept: Capture -> bool)
    requires FirstMatch(arrivals, id, accept).Some?
    ensures var c := FirstMatch(arrivals, id, accept).value;
            c.meta.id == id && accept(c) && exists f :: f in arrivals && Captured(f) == Some(c)
  {
    hide Captured;
    if !Matches(arrivals[0], id, accept) {
      MatchIsOwnRun(arrivals[1..], id, accept);
      var f :| f in arrivals[1..] && Captured(f) == Some(FirstMatch(arrivals, id, accept).value);
      assert f in arrivals;
    }
  }

  /** Undecodable frames and frames of other runs in between change nothing. */
  lemma {:induction false} ForeignRunsIgnored(
      before: seq<Bytes>, noise: seq<Bytes>, after: seq<Bytes>, id: RunId, accept: Capture -> bool)
    requires forall f :: f in noise ==> Captured(f).None? || Captured(f).value.meta.id != id
    ensures FirstMatch(before + noise + after, id, accept) == FirstMatch(before + after, id, accept)
  {
    hide Captured;
    if before != [] {
      ForeignRunsIgnored(before[1..], noise, after, id, accept);
      assert (before + noise + after)[1..] == before[1..] + noise + after;
      assert (before + after)[1..] == before[1..] + after;
    } else if noise != [] {
      assert noise[0] in noise;
      ForeignRunsIgnored(before, noise[1..], after, id, accept);
      assert (before + noise + after)[1..] == before + noise[1..] + after;
    } else {
      assert before + noise + after == before + after;
    }
  }

  /** `waitReply`: what it reports, from the frames that arrive in time. */
  method WaitReply(arrivals: seq<Bytes>, id: RunId, accept: Capture -> bool) returns (got: Option<Capture>)
    ensures got == FirstMatch(arrivals, id, accept)
  {
    hide Captured;
    var found := RecvMatch(arrivals, id, accept);
    FirstMatchAt(arrivals, id, accept, if found.Some? then found.value else |arrivals|);
    if found.None? { return None; }
    got := ParseMarked(arrivals[found.value]);
  }

  // ---- what a reply decodes to ----

  /** A reply packet, decoded: swapped addresses and ports, the echo, its control block. */
  lemma CaptureReply(vni: u32, q: Ip, r: L4Reply)
    requires Unmarshal(r.payload).Some?
    ensures CaptureL3(vni, EtherOf(q.v6), EncodeL3(q, r)) == Some(Capture(
              ProtoOf(q.v6, r), if r.Echo? then (if q.v6 then 129 else 0) else 0,
              if r.Echo? then 0 else r.sport, if r.Echo? then 0 else r.dport,
              if r.Segment? then r.flags else 0, if r.Segment? then r.seqno else 0,
              vni, To16(AddrField(q.v6, q.dst)), r.payload, Unmarshal(r.payload).value))
  {
    hide ParseIp, EncodeL3, EncodeL4, PayloadOffset, Unmarshal;
    ParseReply(q, r);
    EncodedL4(q.v6, q.dst, q.src, r);
    assert Marked(TOS);
  }

  /** What the sniffer makes of a frame the responder emitted on its plain path. */
  lemma CapturePlainReply(a: Agent, flows: Flows, frame: Bytes, aux: u16)
    requires HandleRegular(a, flows, frame, aux).sent.Some?
    ensures PlainL3(frame).Some? && ReplyTo(a, flows, PlainL3(frame)).sent.Some?
    ensures var f, t := HandleRegular(a, flows, frame, aux).sent.value, PlainL3(frame).value;
            var l3 := ReplyTo(a, flows, Some(t)).sent.value;
            Captured(f) == if ToVxlanPort(t.etherType, l3) then None else CaptureL3(0, t.etherType, l3)
  {
    hide HandleRegular, Strip, ReplyL3, CaptureL3, Quiet, ParseIp, Sightings.VxlanBody;
    EmittedPlain(a, flows, frame, aux);
    ReplyToIsQuiet(a, flows, PlainL3(frame).value);
    NotVxlanBody(HandleRegular(a, flows, frame, aux).sent.value);
  }

  /** And of one emitted inside VXLAN. */
  lemma CaptureTunnelReply(a: Agent, flows: Flows, frame: Bytes, aux: u16)
    requires HandleVxlan(a, flows, frame, aux).sent.Some?
    ensures Sightings.VxlanBody(frame).Some?
    ensures var f, t := HandleVxlan(a, flows, frame, aux).sent.value, PlainL3(Sightings.VxlanBody(frame).value[8..]);
            && t.Some? && ReplyTo(a, flows, t).sent.Some?
            && Captured(f) == CaptureL3(VniOf(frame), t.value.etherType, ReplyTo(a, flows, t).sent.value)
  {
    hide HandleVxlan, PlainL3, ReplyL3, CaptureL3, ParseIp, Sightings.VxlanBody, Strip;
    EmittedTunnel(a, flows, frame, aux);
    var f := HandleVxlan(a, flows, frame, aux).sent.value;
    VxlanFrame(f);
  }

  lemma VxlanFrame(f: Bytes)
    requires PlainL3(f).Some? && ToVxlanPort(PlainL3(f).value.etherType, PlainL3(f).value.bytes)
    ensures IsVxlanFrame(f)
  {
    hide ToVxlanPort, Strip;
  }
}
