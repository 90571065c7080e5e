/** One routed hop out and the first link back: the smallest answered run whose path is not travel order. */
module RoundTrip {
  import opened Wire
  import opened Address
  import opened Builders
  import opened Dissect
  import opened Tfmeta
  import opened Replies
  import opened Exchange
  import opened Sightings
  import opened Paths
  import A = Agreement
  import D = Disagreement
  import opened Journey

  function Ping(): Bytes {
    D.Request(false, D.CLIENT, D.VM, 7, 0, 1)
  }

  /** The request as it is sent, or after routers have taken TTL down. */
  function PingL3(ttl: byte): Bytes {
    IPv4(TOS, ttl, PROTO_UDP, D.CLIENT, D.VM, Ping())
  }

  /** A node that owns no address and sees the packet in an untagged frame. */
  function NodeFor(l3: Bytes): Node {
    Node(D.EnvFor(Regular, []), Packet(FrameL2(Zeros(6), Zeros(6), 0, ETH_IPV4, l3), 1, None, None), 0, 0)
  }

  function Outbound(): Way {
    Way(false, [PingL3(255), PingL3(254)], [true], [NodeFor(PingL3(255)), NodeFor(PingL3(254))])
  }

  function Return(reply: Bytes): Way {
    Way(false, [reply], [], [NodeFor(reply)])
  }

  lemma NodeSees(l3s: seq<Bytes>, i: nat)
    requires i < |l3s|
    ensures Sees(false, l3s, i, NodeFor(l3s[i]))
  {
    hide FrameL2, Strip;
    StripFrameL2(Zeros(6), Zeros(6), 0, ETH_IPV4, l3s[i]);
  }

  lemma PingMarked(ttl: byte)
    ensures ParseIp(ETH_IPV4, PingL3(ttl)) == Some(Ip(false, TOS, PROTO_UDP, D.CLIENT, D.VM, Ping()))
    ensures MarkL3(ETH_IPV4, PingL3(ttl)).Some? && MarkL3(ETH_IPV4, PingL3(ttl)).value.hop == 255 - ttl
  {
    hide Ping, MarkL4, IPv4;
    ParseIpPacket(false, TOS, ttl, PROTO_UDP, D.CLIENT, D.VM, Ping());
    PingL4();
    A.DirectMark(ETH_IPV4, PingL3(ttl));
  }

  lemma PingL4()
    ensures MarkL4(Ping(), PROTO_UDP).Some?
    ensures MarkL4(Ping(), PROTO_UDP).value.need == 1 && MarkL4(Ping(), PROTO_UDP).value.deliver == 0
  {
    hide MarkL4;
    D.RequestMark(false, D.CLIENT, D.VM, 7, 0, 1);
  }

  lemma PingRouted()
    ensures Step(false, PingL3(255), PingL3(254), true)
  {
    hide Ping;
    var x, y := PingL3(255), PingL3(254);
    var g, h := IPv4Header(TOS, 255, PROTO_UDP, D.CLIENT, D.VM, 20 + |Ping()|),
                IPv4Header(TOS, 254, PROTO_UDP, D.CLIENT, D.VM, 20 + |Ping()|);
    assert x[..10] == g[..10] && y[..10] == h[..10];
    assert forall i :: 0 <= i < 10 && i != 8 ==> g[i] == h[i];
    assert x[12..20] == g[12..20] && y[12..20] == h[12..20] && g[12..20] == h[12..20];
    assert x[20..] == y[20..];
    forall i | 0 <= i < |x| && !Rewritable(false, i) ensures y[i] == x[i] {
      if i < 10 {
        assert x[i] == x[..10][i] && y[i] == y[..10][i];
      } else if i < 20 {
        assert x[i] == x[12..20][i - 12] && y[i] == y[12..20][i - 12];
      } else {
        assert x[i] == x[20..][i - 20] && y[i] == y[20..][i - 20];
      }
    }
  }

  /** The responder at the far end answers the request as it arrives there. */
  lemma PingAnswered(flows: Flows)
    ensures ReplyTo(D.AgentFor(Regular, [D.VM]), flows, Some(L3(ETH_IPV4, PingL3(254)))).sent.Some?
  {
    hide Ping, PingL3, MarkL4, ParseIp, PlanL4, EncodeL3, PayloadOf, ResponderKeys;
    PingMarked(254);
    PingL4();
    D.VmIsLocal();
    var a := D.AgentFor(Regular, [D.VM]);
    A.PlanIsMark(a, flows, Ip(false, TOS, PROTO_UDP, D.CLIENT, D.VM, Ping()));
    assert Marked(TOS);
  }

  lemma OutboundSeen()
    ensures Seen(Outbound())
  {
    hide PingL3, Sees, Step, NodeFor, MarkL3;
    var l3s := [PingL3(255), PingL3(254)];
    PingRouted();
    PingMarked(255);
    NodeSees(l3s, 0);
    NodeSees(l3s, 1);
    assert l3s[0] == PingL3(255) && l3s[1] == PingL3(254);
  }

  lemma LowerHopFirst(o: Observation, o2: Observation)
    requires o2.hop < o.hop
    ensures Sorted([o2, o]) && !Sorted([o, o2])
  {
    hide LexLess;
    assert Less([o, o2][1], [o, o2][0]);
  }

  /** Whatever a node of a way sees, it ships. */
  lemma NodeReports(w: Way, text: RunId -> string, i: nat) returns (o: Observation)
    requires Seen(w) && i < |w.nodes|
    ensures ShippedFrom(w, text, o, i)
  {
    hide Report, Sees, Step, MarkL3, Routed;
    assert Sees(w.v6, w.l3s, i, w.nodes[i]);
    var n := w.nodes[i];
    NodeObserves(w.v6, w.l3s, w.steps, i, n);
    o := Shipped(Report(n.env, n.packet, n.direction, n.now).value, text, "", "");
  }

  lemma ReturnSeen(flows: Flows, reply: Bytes)
    requires ReplyTo(D.AgentFor(Regular, [D.VM]), flows, Some(L3(ETH_IPV4, PingL3(254)))).sent == Some(reply)
    ensures Seen(Return(reply))
  {
    hide ReplyTo, PingL3, MarkL3, Sees, Step, NodeFor, D.AgentFor;
    NodeSees([reply], 0);
    PingMarked(254);
    ReplyRestarts(D.AgentFor(Regular, [D.VM]), flows, false, PingL3(254));
  }

  /**
   * The request is answered, the node past the router ships it with hop 1, and the node next to the answering VM
   * ships the reply with hop 0 under the same run id: sorted, what happened last comes first.
   */
  lemma AnsweredRunOutOfOrder(flows: Flows, text: RunId -> string)
      returns (reply: Bytes, o: Observation, o2: Observation)
    ensures ReplyTo(D.AgentFor(Regular, [D.VM]), flows, Some(L3(ETH_IPV4, PingL3(254)))).sent == Some(reply)
    ensures ShippedFrom(Outbound(), text, o, 1) && ShippedFrom(Return(reply), text, o2, 0)
    ensures o.id == o2.id && o.hop == 1 && o2.hop == 0
    ensures Sorted([o2, o]) && !Sorted([o, o2])
  {
    hide ReplyTo, PingL3, ShippedFrom, MarkL3, Sees, Step, NodeFor, Less, D.AgentFor;
    PingAnswered(flows);
    var a, w := D.AgentFor(Regular, [D.VM]), Outbound();
    reply := ReplyTo(a, flows, Some(L3(ETH_IPV4, PingL3(254)))).sent.value;
    var back := Return(reply);
    OutboundSeen();
    ReturnSeen(flows, reply);
    o := NodeReports(w, text, 1);
    o2 := NodeReports(back, text, 0);
    PingMarked(254);
    ReplyRestarts(a, flows, false, PingL3(254));
    NodeShips(w, text, o, 1);
    NodeShips(back, text, o2, 0);
    OneStep();
    MarkAlongTheWay(false, w.l3s, w.steps, 1);
    LowerHopFirst(o, o2);
  }

  lemma OneStep()
    ensures Routed([true][..1]) == 1 && Routed([][..0]) == 0
  {
    assert [true][..1] == [true] && [true][..0] == [];
  }
}
