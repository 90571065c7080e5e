/** `runTCP` against `buildTCPReply`: the two-party dialogue, byte for byte and over interleaved runs. */
module Dialogue {
  import opened Wire
  import opened Address
  import opened Builders
  import opened Dissect
  import opened Tfmeta
  import opened Replies
  import opened Exchange
  import opened Sniffer
  import opened Connections
  import E = Echo
  import R = Responder

  const CLIENT_ISN: u32 := 0x2000

  /** "TRACEFLOW-PING". */
  const LABEL: Bytes := [0x54, 0x52, 0x41, 0x43, 0x45, 0x46, 0x4C, 0x4F, 0x57, 0x2D, 0x50, 0x49, 0x4E, 0x47]

  lemma LabelText()
    ensures |LABEL| == 14 && forall i :: 0 <= i < 14 ==> LABEL[i] as int == "TRACEFLOW-PING"[i] as int
  {
  }

  /** What the command line and the run fix: addresses, ports, framing and the control block. */
  datatype Client = Client(
    src: IP, dst: IP, sport: u16, dport: u16, dstMac: Mac, srcMac: Mac, vlan: int, meta: Meta)

  function KeyOf(c: Client): (k: FlowKey)
    ensures k.sport == c.sport && k.dport == c.dport
  {
    var v6 := IsV6(c.dst);
    FlowKey(To16(AddrField(v6, c.src)), To16(AddrField(v6, c.dst)), c.sport, c.dport)
  }

  /** The control block every segment starts with, signed with the shared key. */
  function Lead(a: Agent, c: Client): (p: Bytes)
    ensures |p| == if |a.key| == 0 then META_SIZE else SIGNED_SIZE
  {
    Signed(a.hmac, c.meta, a.key)
  }

  // ---- the four segments ----

  function Syn(a: Agent, c: Client): Seg { Seg(KeyOf(c), CLIENT_ISN, SYN, Lead(a, c)) }

  function BareAck(a: Agent, c: Client): Seg { Seg(KeyOf(c), Add32(CLIENT_ISN, 1), ACK, Lead(a, c)) }

  function Data(a: Agent, c: Client): Seg { Seg(KeyOf(c), Add32(CLIENT_ISN, 1), PSH_ACK, Lead(a, c) + LABEL) }

  function Fin(a: Agent, c: Client): Seg {
    Seg(KeyOf(c), Add32(CLIENT_ISN, 1 + |Lead(a, c) + LABEL|), FIN_ACK, Lead(a, c))
  }

  /** The run asks for an answer to a responder that can give one. */
  predicate Served(a: Agent, c: Client) {
    && c.meta.needResponse && !c.meta.deliver
    && a.tcpRespond && a.mode != Vxlan && ResponderKey(c.dst) in a.local
  }

  lemma LeadPasses(a: Agent, c: Client)
    requires c.meta.needResponse && !c.meta.deliver
    ensures Gate(a, Lead(a, c)) && Gate(a, Lead(a, c) + LABEL)
    ensures Unmarshal(EchoOf(a, Lead(a, c))) == Some(E.Cleared(c.meta))
    ensures Unmarshal(EchoOf(a, Lead(a, c) + LABEL)) == Some(E.Cleared(c.meta))
  {
    hide Gate, EchoOf, Unmarshal, Signed;
    E.SignedPasses(a, c.meta, []);
    E.SignedPasses(a, c.meta, LABEL);
    assert Signed(a.hmac, c.meta, a.key) + [] == Lead(a, c);
  }

  // ---- sequence numbers, with other flows in between ----

  /** Position `i` of a run holds a segment of another flow that does not empty the table. */
  predicate Foreign(a: Agent, c: Client, flows: Flows, segs: seq<Seg>, i: nat)
    requires i < |segs|
  {
    segs[i].key != KeyOf(c) && !Resets(a, After(a, flows, segs[..i]), segs[i])
  }

  /** Segments of other flows that do not overflow the table leave the client's flow where it was. */
  lemma {:induction false} ForeignKeeps(a: Agent, c: Client, flows: Flows, segs: seq<Seg>, lo: nat, hi: nat)
    requires lo <= hi <= |segs| && KeyOf(c) in After(a, flows, segs[..lo])
    requires forall i :: lo <= i < hi ==> Foreign(a, c, flows, segs, i)
    ensures KeyOf(c) in After(a, flows, segs[..hi])
    ensures After(a, flows, segs[..hi])[KeyOf(c)] == After(a, flows, segs[..lo])[KeyOf(c)]
    decreases hi
  {
    hide PlanSeg, Resets, After, Add32, KeyOf;
    if lo < hi {
      ForeignKeeps(a, c, flows, segs, lo, hi - 1);
      AfterStep(a, flows, segs, hi - 1);
      assert Foreign(a, c, flows, segs, hi - 1);
      KeptStep(a, After(a, flows, segs[..hi - 1]), segs[hi - 1], KeyOf(c));
      Add32Nothing(After(a, flows, segs[..hi - 1])[KeyOf(c)]);
    }
  }

  // Each of the client's segments alone: what it draws and where it leaves the flow.

  lemma SynDraws(a: Agent, c: Client, flows: Flows)
    requires c.meta.needResponse && !c.meta.deliver
    ensures var k, isn, n := KeyOf(c), a.isn(KeyOf(c)), |Lead(a, c)|;
            PlanSeg(a, flows, Syn(a, c)) ==
            Plan((if |flows| > 4096 then map[] else flows)[k := Add32(isn, 1 + n)],
                 Some(Segment(c.dport, c.sport, isn, 0x2001, SYN_ACK, EchoOf(a, Lead(a, c)))))
  {
    hide Gate, EchoOf, Signed, KeyOf, Unmarshal;
    LeadPasses(a, c);
  }

  lemma BareAckDraws(a: Agent, c: Client, flows: Flows)
    ensures PlanSeg(a, flows, BareAck(a, c)) == Plan(flows, None)
  {
    hide Gate, EchoOf, Signed, KeyOf, Unmarshal;
  }

  lemma DataDraws(a: Agent, c: Client, flows: Flows)
    requires c.meta.needResponse && !c.meta.deliver && KeyOf(c) in flows
    ensures var k, n := KeyOf(c), |Lead(a, c)|;
            PlanSeg(a, flows, Data(a, c)) ==
            Plan(flows[k := Add32(flows[k], n + 14)],
                 Some(Segment(c.dport, c.sport, flows[k], 0x2001 + n + 14, PSH_ACK, EchoOf(a, Lead(a, c) + LABEL))))
  {
    hide Gate, EchoOf, Signed, KeyOf, Unmarshal;
    LeadPasses(a, c);
  }

  lemma FinDraws(a: Agent, c: Client, flows: Flows)
    requires c.meta.needResponse && !c.meta.deliver && KeyOf(c) in flows
    ensures var k, n := KeyOf(c), |Lead(a, c)|;
            PlanSeg(a, flows, Fin(a, c)) ==
            Plan(flows - {k},
                 Some(Segment(c.dport, c.sport, flows[k], 0x2001 + 2 * n + 15, FIN_ACK, EchoOf(a, Lead(a, c)))))
  {
    hide Gate, EchoOf, Signed, KeyOf, Unmarshal;
    LeadPasses(a, c);
  }

  /**
   * The whole dialogue inside any run: whatever other flows do between the client's four segments, short of
   * emptying the table, the three replies carry isn, isn+1+L and isn+1+L+(L+14), acknowledge 0x2001,
   * 0x2001+L+14 and 0x2001+2L+15, the bare ACK changes nothing, and no entry is left.
   */
  lemma DialogueInRun(
      a: Agent, c: Client, flows: Flows, segs: seq<Seg>, syn: nat, ack: nat, data: nat, fin: nat)
    requires c.meta.needResponse && !c.meta.deliver
    requires syn < ack < data < fin < |segs|
    requires segs[syn] == Syn(a, c) && segs[ack] == BareAck(a, c) && segs[data] == Data(a, c) && segs[fin] == Fin(a, c)
    requires forall i :: syn < i < fin && i != ack && i != data ==> Foreign(a, c, flows, segs, i)
    ensures var isn, n := a.isn(KeyOf(c)), |Lead(a, c)|;
            && ReplyAt(a, flows, segs, syn) ==
               Some(Segment(c.dport, c.sport, isn, 0x2001, SYN_ACK, EchoOf(a, Lead(a, c))))
            && ReplyAt(a, flows, segs, ack) == None
            && After(a, flows, segs[..ack + 1]) == After(a, flows, segs[..ack])
            && ReplyAt(a, flows, segs, data) ==
               Some(Segment(c.dport, c.sport, Add32(isn, 1 + n), 0x2001 + n + 14, PSH_ACK,
                            EchoOf(a, Lead(a, c) + LABEL)))
            && ReplyAt(a, flows, segs, fin) ==
               Some(Segment(c.dport, c.sport, Add32(isn, 1 + n + (n + 14)), 0x2001 + 2 * n + 15, FIN_ACK,
                            EchoOf(a, Lead(a, c))))
            && KeyOf(c) !in After(a, flows, segs[..fin + 1])
  {
    hide PlanSeg, EchoOf, Lead, Add32, After, KeyOf, Syn, BareAck, Data, Fin, Foreign;
    SynDraws(a, c, After(a, flows, segs[..syn]));
    AfterStep(a, flows, segs, syn);
    ForeignKeeps(a, c, flows, segs, syn + 1, ack);
    BareAckDraws(a, c, After(a, flows, segs[..ack]));
    AfterStep(a, flows, segs, ack);
    ForeignKeeps(a, c, flows, segs, ack + 1, data);
    DataDraws(a, c, After(a, flows, segs[..data]));
    AfterStep(a, flows, segs, data);
    ForeignKeeps(a, c, flows, segs, data + 1, fin);
    Add32Twice(a.isn(KeyOf(c)), 1 + |Lead(a, c)|, |Lead(a, c)| + 14);
    FinDraws(a, c, After(a, flows, segs[..fin]));
    AfterStep(a, flows, segs, fin);
  }

  /** Everything the client sends after its SYN, once. */
  function Stream(a: Agent, c: Client): Bytes {
    Lead(a, c) + LABEL + Lead(a, c)
  }

  /** Where a segment's payload starts in that stream: a SYN takes up one number itself. */
  function StreamOffset(s: Seg): int {
    s.seqno + (if IsSYN(s.flags) then 1 else 0) - (CLIENT_ISN + 1)
  }

  /** The segment's payload is what the stream holds at its sequence number. */
  predicate OfStream(s: Seg, stream: Bytes) {
    var off := StreamOffset(s);
    0 <= off && off + |s.data| <= |stream| && stream[off..off + |s.data|] == s.data
  }

  lemma StreamPieces(lead: Bytes)
    ensures var stream := lead + LABEL + lead;
            && stream[0..|lead|] == lead
            && stream[0..|lead| + 14] == lead + LABEL
            && stream[|lead| + 14..|lead| + 14 + |lead|] == lead
  {
    var stream := lead + LABEL + lead;
    assert stream == lead + (LABEL + lead);
    assert stream[0..|lead| + 14] == lead + LABEL;
  }

  lemma Offsets(a: Agent, c: Client)
    ensures StreamOffset(Syn(a, c)) == 0 && StreamOffset(BareAck(a, c)) == 0 && StreamOffset(Data(a, c)) == 0
    ensures StreamOffset(Fin(a, c)) == |Lead(a, c)| + 14
  {
    hide KeyOf, Signed;
  }

  /**
   * The client's segments overlap, the SYN's payload, the bare ACK's and the data's all starting at 0x2001, but
   * never contradict each other: all four are pieces of one stream.
   */
  lemma ClientStream(a: Agent, c: Client)
    ensures var stream := Stream(a, c);
            && OfStream(Syn(a, c), stream) && OfStream(BareAck(a, c), stream)
            && OfStream(Data(a, c), stream) && OfStream(Fin(a, c), stream)
    ensures StreamOffset(Syn(a, c)) == StreamOffset(BareAck(a, c)) == StreamOffset(Data(a, c)) == 0
    ensures StreamOffset(Fin(a, c)) == |Lead(a, c) + LABEL|
  {
    hide KeyOf, Lead, StreamOffset, Add32;
    Offsets(a, c);
    StreamPieces(Lead(a, c));
  }

  /** The server acknowledges the start of that stream, then the end of the data, and at last one past its end. */
  lemma StreamAcknowledged(a: Agent, c: Client, flows: Flows)
    requires c.meta.needResponse && !c.meta.deliver && KeyOf(c) in flows
    ensures var syn, data, fin := PlanSeg(a, flows, Syn(a, c)).reply, PlanSeg(a, flows, Data(a, c)).reply,
                                  PlanSeg(a, flows, Fin(a, c)).reply;
            && syn.Some? && syn.value.ack == CLIENT_ISN + 1
            && data.Some? && data.value.ack == CLIENT_ISN + 1 + |Data(a, c).data|
            && fin.Some? && fin.value.ack == CLIENT_ISN + 1 + |Stream(a, c)| + 1
  {
    hide PlanSeg, KeyOf, Lead, EchoOf, Add32;
    SynDraws(a, c, flows);
    DataDraws(a, c, flows);
    FinDraws(a, c, flows);
  }

  // ---- the same segments as frames ----

  /** The closure `send` of `runTCP`. */
  function SegmentFrame(c: Client, s: Seg, ack: u32): Bytes {
    var v6 := IsV6(c.dst);
    E.ClientFrame(c.dstMac, c.srcMac, c.vlan, v6,
                  E.ProbeL3(PROTO_TCP, TOS, c.src, c.dst,
                            Tcp(v6, c.src, c.dst, c.sport, c.dport, s.seqno, ack, s.flags, s.data)))
  }

  lemma SegmentArrives(c: Client, s: Seg, ack: u32)
    requires s.key == KeyOf(c)
    ensures var v6 := IsV6(c.dst);
            var l4 := Tcp(v6, c.src, c.dst, c.sport, c.dport, s.seqno, ack, s.flags, s.data);
            && SegOf(E.Arrived(PROTO_TCP, c.src, c.dst, l4)) == Some(s)
            && PayloadOffset(PROTO_TCP, l4) == Some(20)
  {
    hide TcpBlank, TcpNumbers, L4Checksum, Patched;
  }

  /** A capture of a TCP packet. */
  function TcpCapture(sport: u16, dport: u16, flags: byte, seqno: u32, src: Addr16, payload: Bytes, m: Meta): Capture {
    Capture(PROTO_TCP, 0, sport, dport, flags, seqno, 0, src, payload, m)
  }

  /** The client's own segment, as its sniffer sees it. */
  lemma CaptureOwn(c: Client, s: Seg, ack: u32, m: Meta)
    requires s.key == KeyOf(c) && Unmarshal(s.data) == Some(m)
    ensures Captured(SegmentFrame(c, s, ack)) ==
            Some(TcpCapture(c.sport, c.dport, s.flags, s.seqno, To16(AddrField(IsV6(c.dst), c.src)), s.data, m))
  {
    hide E.ClientFrame, IpPacket, ParseIp, PlainL3, Tcp, PayloadOffset, Unmarshal, Marked;
    var v6 := IsV6(c.dst);
    var l4 := Tcp(v6, c.src, c.dst, c.sport, c.dport, s.seqno, ack, s.flags, s.data);
    var l3 := E.ProbeL3(PROTO_TCP, TOS, c.src, c.dst, l4);
    E.ClientFrameL3(c.dstMac, c.srcMac, c.vlan, v6, l3);
    ParseIpPacket(v6, TOS, TTL_MAX, PROTO_TCP, c.src, c.dst, l4);
    SegmentArrives(c, s, ack);
    NotTunnel(SegmentFrame(c, s, ack));
    MarkedTos();
  }

  lemma MarkedTos()
    ensures Marked(TOS)
  {
  }

  lemma NotTunnel(f: Bytes)
    requires PlainL3(f).Some? && ParseIp(PlainL3(f).value.etherType, PlainL3(f).value.bytes).Some?
    requires ParseIp(PlainL3(f).value.etherType, PlainL3(f).value.bytes).value.proto != PROTO_UDP
    ensures !IsVxlanFrame(f) && VniOf(f) == 0
  {
    hide ParseIp, Strip;
  }

  /** A client segment handed to the responder, and the reply as the client captures it. */
  lemma SegmentStep(a: Agent, c: Client, flows: Flows, aux: u16, s: Seg, ack: u32)
    requires Served(a, c) && s.key == KeyOf(c)
    ensures var o, p := Handle(a, flows, SegmentFrame(c, s, ack), aux), PlanSeg(a, flows, s);
            && o.flows == p.flows
            && (o.sent.Some? <==> p.reply.Some?)
            && (p.reply.Some? && Unmarshal(p.reply.value.payload).Some? ==>
                var r := p.reply.value;
                Captured(o.sent.value) ==
                Some(TcpCapture(r.sport, r.dport, r.flags, r.seqno, To16(c.dst), r.payload,
                                Unmarshal(r.payload).value)))
  {
    hide E.ClientFrame, E.ProbeL3, EncodeL3, CaptureL3, Captured, PlainL3, ReplyL3, HandleRegular, HandleVxlan, Tcp,
      ToVxlanPort, Unmarshal, PlanSeg, Strip, SegOf;
    var v6 := IsV6(c.dst);
    var l4 := Tcp(v6, c.src, c.dst, c.sport, c.dport, s.seqno, ack, s.flags, s.data);
    var l3 := E.ProbeL3(PROTO_TCP, TOS, c.src, c.dst, l4);
    var f := SegmentFrame(c, s, ack);
    E.ClientFrameL3(c.dstMac, c.srcMac, c.vlan, v6, l3);
    E.NotUdpProbe(PROTO_TCP, c.src, c.dst, l4);
    E.PlainHandle(a, flows, f, aux);
    SegmentReply(a, c, flows, s, ack);
    E.RegularSends(a, flows, f, aux);
    var p := PlanSeg(a, flows, s);
    if p.reply.Some? && Unmarshal(p.reply.value.payload).Some? {
      var q, r := E.Arrived(PROTO_TCP, c.src, c.dst, l4), p.reply.value;
      CapturePlainReply(a, flows, f, aux);
      CaptureReply(0, q, r);
      E.ReplyPort(q, r);
      E.FieldIsLocal(a, c.dst);
      E.RepeatedField(v6, c.dst);
    }
  }

  lemma SegmentReply(a: Agent, c: Client, flows: Flows, s: Seg, ack: u32)
    requires Served(a, c) && s.key == KeyOf(c)
    ensures var v6 := IsV6(c.dst);
            var l4 := Tcp(v6, c.src, c.dst, c.sport, c.dport, s.seqno, ack, s.flags, s.data);
            var p := PlanSeg(a, flows, s);
            ReplyL3(a, flows, EtherOf(v6), E.ProbeL3(PROTO_TCP, TOS, c.src, c.dst, l4)) ==
            Outcome(p.flows,
                    if p.reply.None? then None
                    else Some(EncodeL3(E.Arrived(PROTO_TCP, c.src, c.dst, l4), p.reply.value)))
  {
    hide Admitted, E.ProbeL3, EncodeL3, Tcp, PlanSeg, SegOf;
    var v6 := IsV6(c.dst);
    var l4 := Tcp(v6, c.src, c.dst, c.sport, c.dport, s.seqno, ack, s.flags, s.data);
    E.ProbeAdmitted(a, PROTO_TCP, c.src, c.dst, l4);
    SegmentArrives(c, s, ack);
  }

  // ---- runTCP ----

  predicate IsSynAck(cap: Capture, sport: u16) {
    cap.proto == PROTO_TCP && cap.dstPort == sport && IsSYN(cap.tcpFlags) && IsACK(cap.tcpFlags)
  }

  predicate IsData(cap: Capture, sport: u16) {
    cap.proto == PROTO_TCP && cap.dstPort == sport && IsPSH(cap.tcpFlags)
  }

  predicate IsFinAck(cap: Capture, sport: u16) {
    cap.proto == PROTO_TCP && cap.dstPort == sport && IsFIN(cap.tcpFlags)
  }

  /** Send one segment: the client's sniffer sees it, and then whatever the responder answers. */
  method Send(c: Client, r: R.Responder, s: Seg, ack: u32) returns (seen: seq<Bytes>)
    modifies r
    ensures var o := Handle(r.agent, old(r.flows), SegmentFrame(c, s, ack), 0);
            && r.flows == o.flows
            && seen == [SegmentFrame(c, s, ack)] + if o.sent.None? then [] else [o.sent.value]
  {
    hide Handle, SegmentFrame;
    seen := E.SendFrame(r, SegmentFrame(c, s, ack));
  }

  /** What the client holds at the end: the three captures it accepted. */
  datatype Transcript = Transcript(synAck: Option<Capture>, data: Option<Capture>, finAck: Option<Capture>)

  /** One wait: the client takes the first arrival that matches and leaves what comes after it. */
  method Await(c: Client, arrivals: seq<Bytes>, accept: Capture -> bool, ghost skipped: nat, ghost expected: Capture)
    returns (got: Option<Capture>, rest: seq<Bytes>)
    requires skipped < |arrivals|
    requires forall i :: 0 <= i < skipped ==> !Matches(arrivals[i], c.meta.id, accept)
    requires Captured(arrivals[skipped]) == Some(expected) && expected.meta.id == c.meta.id && accept(expected)
    ensures got == Some(expected) && rest == arrivals[skipped + 1..]
  {
    hide Captured;
    var found := RecvMatch(arrivals, c.meta.id, accept);
    assert Matches(arrivals[skipped], c.meta.id, accept);
    assert found == Some(skipped);
    got := ParseMarked(arrivals[found.value]);
    rest := arrivals[found.value + 1..];
  }

  lemma SignedIsMeta(a: Agent, c: Client)
    ensures Unmarshal(Lead(a, c)) == Some(c.meta) && Unmarshal(Lead(a, c) + LABEL) == Some(c.meta)
  {
    hide Signed, Unmarshal;
    SignedIsAuthentic(a.hmac, c.meta, a.key, []);
    SignedIsAuthentic(a.hmac, c.meta, a.key, LABEL);
    assert Signed(a.hmac, c.meta, a.key) + [] == Lead(a, c);
  }

  /** A reply of this run, as the client captures it. */
  function Reply(a: Agent, c: Client, flags: byte, seqno: u32, data: Bytes): Capture {
    TcpCapture(c.dport, c.sport, flags, seqno, To16(c.dst), EchoOf(a, data), E.Cleared(c.meta))
  }

  /** One of the client's own segments, as the client captures it. */
  function Own(c: Client, s: Seg): Capture {
    TcpCapture(c.sport, c.dport, s.flags, s.seqno, To16(AddrField(IsV6(c.dst), c.src)), s.data, c.meta)
  }

  /**
   * The client tells its own segments from replies by the port alone: its data and its FIN pass the tests for the
   * replies to them exactly when both ports are equal. Its SYN and its bare ACK pass none.
   */
  lemma OwnAccepted(a: Agent, c: Client)
    ensures IsData(Own(c, Data(a, c)), c.sport) <==> c.sport == c.dport
    ensures IsFinAck(Own(c, Fin(a, c)), c.sport) <==> c.sport == c.dport
    ensures !IsSynAck(Own(c, Syn(a, c)), c.sport) && !IsData(Own(c, BareAck(a, c)), c.sport)
    ensures !IsFinAck(Own(c, BareAck(a, c)), c.sport) && !IsFinAck(Own(c, Data(a, c)), c.sport)
  {
    hide Signed, KeyOf, Lead;
  }

  /** And the replies pass the tests meant for them. */
  lemma ReplyAccepted(a: Agent, c: Client, seqno: u32, data: Bytes)
    ensures IsSynAck(Reply(a, c, SYN_ACK, seqno, data), c.sport)
    ensures IsData(Reply(a, c, PSH_ACK, seqno, data), c.sport) && !IsFinAck(Reply(a, c, PSH_ACK, seqno, data), c.sport)
    ensures IsFinAck(Reply(a, c, FIN_ACK, seqno, data), c.sport)
  {
    hide EchoOf;
  }

  /** The four segments with their numbers and flags written out. */
  lemma SegmentsWritten(a: Agent, c: Client)
    ensures var k, lead := KeyOf(c), Lead(a, c);
            && Syn(a, c) == Seg(k, 0x2000, 0x02, lead) && BareAck(a, c) == Seg(k, 0x2001, 0x10, lead)
            && Data(a, c) == Seg(k, 0x2001, 0x18, lead + LABEL)
            && Fin(a, c) == Seg(k, 0x2001 + |lead| + 14, 0x11, lead)
  {
    hide KeyOf, Signed;
  }

  /** What a client frame holds: MACs, VID, addresses, and the segment with its acknowledgement. */
  lemma SegmentOnWire(c: Client, s: Seg, ack: u32)
    requires s.key == KeyOf(c)
    ensures var f, v6 := SegmentFrame(c, s, ack), IsV6(c.dst);
            && |f| >= 14 && f[0..6] == c.dstMac && f[6..12] == c.srcMac
            && Strip(f).Some? && Strip(f).value.vlan as int == (if c.vlan > 0 then c.vlan % 0x1000 else 0)
            && PlainL3(f).Some?
            && var q := ParseIp(PlainL3(f).value.etherType, PlainL3(f).value.bytes);
            && q.Some? && q.value.tos == 0xF8 && q.value.proto == 6
            && q.value.src == AddrField(v6, c.src) && q.value.dst == AddrField(v6, c.dst)
            && |q.value.l4| == 20 + |s.data| && q.value.l4[20..] == s.data && q.value.l4[13] == s.flags
            && U16At(q.value.l4, 0) == c.sport && U16At(q.value.l4, 2) == c.dport
            && U32At(q.value.l4, 4) == s.seqno && U32At(q.value.l4, 8) == ack
  {
    hide E.ClientFrame, IpPacket, ParseIp, PlainL3, Tcp, Strip;
    var v6 := IsV6(c.dst);
    var l4 := Tcp(v6, c.src, c.dst, c.sport, c.dport, s.seqno, ack, s.flags, s.data);
    E.ClientFrameL3(c.dstMac, c.srcMac, c.vlan, v6, E.ProbeL3(PROTO_TCP, TOS, c.src, c.dst, l4));
    ParseIpPacket(v6, TOS, TTL_MAX, PROTO_TCP, c.src, c.dst, l4);
  }

  /** The handshake: SYN out, SYN/ACK in, bare ACK out. */
  method Handshake(a: Agent, c: Client, r: R.Responder)
    returns (synAck: Option<Capture>, pending: seq<Bytes>, put: seq<Bytes>)
    requires r.agent == a && Served(a, c)
    modifies r
    ensures var k, isn := KeyOf(c), a.isn(KeyOf(c));
            && synAck == Some(Reply(a, c, SYN_ACK, isn, Lead(a, c)))
            && r.flows == (if |old(r.flows)| > 4096 then map[] else old(r.flows))[k := Add32(isn, 1 + |Lead(a, c)|)]
            && pending == [SegmentFrame(c, BareAck(a, c), Add32(isn, 1))]
            && put == [SegmentFrame(c, Syn(a, c), 0), SegmentFrame(c, BareAck(a, c), Add32(isn, 1))]
  {
    hide PlanSeg, Captured, SegmentFrame, Handle, EchoOf, Unmarshal, Gate, Add32, Signed, KeyOf, IsSynAck;
    SynDraws(a, c, r.flows);
    LeadPasses(a, c);
    SignedIsMeta(a, c);
    OwnAccepted(a, c);
    SegmentStep(a, c, r.flows, 0, Syn(a, c), 0);
    CaptureOwn(c, Syn(a, c), 0, c.meta);
    var seen := Send(c, r, Syn(a, c), 0);
    ghost var expected := Reply(a, c, SYN_ACK, a.isn(KeyOf(c)), Lead(a, c));
    ReplyAccepted(a, c, a.isn(KeyOf(c)), Lead(a, c));
    var rest;
    synAck, rest := Await(c, seen, cap => IsSynAck(cap, c.sport), 1, expected);
    var ack := Add32(synAck.value.tcpSeq, 1);
    BareAckDraws(a, c, r.flows);
    SegmentStep(a, c, r.flows, 0, BareAck(a, c), ack);
    pending := Send(c, r, BareAck(a, c), ack);
    put := [seen[0], pending[0]];
    pending := rest + pending;
  }

  /**
   * The data segment out, its echo in, behind the client's own bare ACK. With equal ports the client takes its own
   * segment for the echo, and the echo is still to be read afterwards.
   */
  method ExchangeData(a: Agent, c: Client, r: R.Responder, ack: u32, pending: seq<Bytes>)
    returns (data: Option<Capture>, rest: seq<Bytes>, put: Bytes)
    requires r.agent == a && Served(a, c) && KeyOf(c) in r.flows
    requires pending == [SegmentFrame(c, BareAck(a, c), ack)]
    modifies r
    ensures var k := KeyOf(c);
            var echo := Reply(a, c, PSH_ACK, old(r.flows)[k], Lead(a, c) + LABEL);
            && data == Some(if c.sport == c.dport then Own(c, Data(a, c)) else echo)
            && |rest| == (if c.sport == c.dport then 1 else 0)
            && (forall f :: f in rest ==> Captured(f) == Some(echo))
            && r.flows == old(r.flows)[k := Add32(old(r.flows)[k], |Lead(a, c)| + 14)]
            && put == SegmentFrame(c, Data(a, c), ack)
  {
    hide PlanSeg, Captured, SegmentFrame, Handle, EchoOf, Unmarshal, Gate, Add32, Signed, KeyOf, IsData;
    DataDraws(a, c, r.flows);
    LeadPasses(a, c);
    SignedIsMeta(a, c);
    OwnAccepted(a, c);
    CaptureOwn(c, BareAck(a, c), ack, c.meta);
    SegmentStep(a, c, r.flows, 0, Data(a, c), ack);
    CaptureOwn(c, Data(a, c), ack, c.meta);
    ghost var echo := Reply(a, c, PSH_ACK, r.flows[KeyOf(c)], Lead(a, c) + LABEL);
    ReplyAccepted(a, c, r.flows[KeyOf(c)], Lead(a, c) + LABEL);
    var seen := Send(c, r, Data(a, c), ack);
    put := seen[0];
    ghost var own := c.sport == c.dport;
    data, rest := Await(c, pending + seen, cap => IsData(cap, c.sport), if own then 1 else 2,
                        if own then Own(c, Data(a, c)) else echo);
  }

  /** The FIN out, the FIN/ACK in, behind whatever was left unread. */
  method ExchangeFin(a: Agent, c: Client, r: R.Responder, ack: u32, pending: seq<Bytes>)
    returns (finAck: Option<Capture>, put: Bytes)
    requires r.agent == a && Served(a, c) && KeyOf(c) in r.flows
    requires forall f :: f in pending ==> Captured(f).Some? && !IsFinAck(Captured(f).value, c.sport)
    modifies r
    ensures finAck == Some(if c.sport == c.dport then Own(c, Fin(a, c))
                           else Reply(a, c, FIN_ACK, old(r.flows)[KeyOf(c)], Lead(a, c)))
    ensures r.flows == old(r.flows) - {KeyOf(c)}
    ensures put == SegmentFrame(c, Fin(a, c), ack)
  {
    hide PlanSeg, Captured, SegmentFrame, Handle, EchoOf, Unmarshal, Gate, Add32, Signed, KeyOf, IsFinAck;
    FinDraws(a, c, r.flows);
    LeadPasses(a, c);
    SignedIsMeta(a, c);
    OwnAccepted(a, c);
    SegmentStep(a, c, r.flows, 0, Fin(a, c), ack);
    CaptureOwn(c, Fin(a, c), ack, c.meta);
    ghost var reply := Reply(a, c, FIN_ACK, r.flows[KeyOf(c)], Lead(a, c));
    ReplyAccepted(a, c, r.flows[KeyOf(c)], Lead(a, c));
    var seen := Send(c, r, Fin(a, c), ack);
    put := seen[0];
    ghost var own := c.sport == c.dport;
    var accept := cap => IsFinAck(cap, c.sport);
    forall i | 0 <= i < |pending| ensures !Matches((pending + seen)[i], c.meta.id, accept) {
      assert (pending + seen)[i] == pending[i] && pending[i] in pending;
    }
    var rest;
    finAck, rest := Await(c, pending + seen, accept, |pending| + if own then 0 else 1,
                          if own then Own(c, Fin(a, c)) else reply);
  }

  /**
   * `runTCP` with data, against a live responder whose frames and the client's own both reach the sniffer: the
   * client sends SYN, ACK, data and FIN with the numbers written out, accepts the SYN/ACK, the data reply and the
   * FIN/ACK with contiguous sequence numbers, and the responder keeps no entry for the connection and every other
   * entry it did not have to drop. Only with equal ports does the client take its own data and FIN for the replies.
   */
  method RunTcp(a: Agent, c: Client, r: R.Responder) returns (t: Transcript, wire: seq<Bytes>)
    requires r.agent == a && Served(a, c)
    modifies r
    ensures var isn, n, own := a.isn(KeyOf(c)), |Lead(a, c)|, c.sport == c.dport;
            && t.synAck == Some(Reply(a, c, SYN_ACK, isn, Lead(a, c)))
            && t.data == Some(if own then Own(c, Data(a, c))
                              else Reply(a, c, PSH_ACK, Add32(isn, 1 + n), Lead(a, c) + LABEL))
            && t.finAck == Some(if own then Own(c, Fin(a, c))
                                else Reply(a, c, FIN_ACK, Add32(isn, 1 + n + (n + 14)), Lead(a, c)))
    ensures r.flows == (if |old(r.flows)| > 4096 then map[] else old(r.flows)) - {KeyOf(c)}
    ensures var k, isn, lead := KeyOf(c), a.isn(KeyOf(c)), Lead(a, c);
            wire == [SegmentFrame(c, Seg(k, 0x2000, 0x02, lead), 0),
                     SegmentFrame(c, Seg(k, 0x2001, 0x10, lead), Add32(isn, 1)),
                     SegmentFrame(c, Seg(k, 0x2001, 0x18, lead + LABEL), Add32(isn, 1)),
                     SegmentFrame(c, Seg(k, 0x2001 + |lead| + 14, 0x11, lead), Add32(isn, 1))]
  {
    hide Reply, SegmentFrame, Add32, Lead, KeyOf, IsFinAck, Captured, Own;
    var synAck, pending, put := Handshake(a, c, r);
    assert synAck.value.tcpSeq == a.isn(KeyOf(c)) by { ReplySeq(a, c, SYN_ACK, a.isn(KeyOf(c)), Lead(a, c)); }
    var ack := Add32(synAck.value.tcpSeq, 1);
    ReplyAccepted(a, c, r.flows[KeyOf(c)], Lead(a, c) + LABEL);
    var data, rest, second := ExchangeData(a, c, r, ack, pending);
    Add32Twice(a.isn(KeyOf(c)), 1 + |Lead(a, c)|, |Lead(a, c)| + 14);
    var finAck, third := ExchangeFin(a, c, r, ack, rest);
    SegmentsWritten(a, c);
    t, wire := Transcript(synAck, data, finAck), put + [second, third];
  }

  lemma ReplySeq(a: Agent, c: Client, flags: byte, seqno: u32, data: Bytes)
    ensures Reply(a, c, flags, seqno, data).tcpSeq == seqno
  {
  }
}
