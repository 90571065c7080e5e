/** A probe on its way: what each transit node reports, and the order the collector gives back. */
module Journey {
  import opened Wire
  import opened Address
  import opened Builders
  import opened Dissect
  import opened Exchange
  import opened Sightings
  import opened Replies
  import opened Tfmeta
  import Agreement
  import Recovery
  import opened Paths
  import Collector

  function TtlAt(v6: bool): nat { if v6 then 7 else 8 }

  /** Offsets a router may rewrite: the TTL, and the IPv4 header checksum. */
  predicate Rewritable(v6: bool, i: nat) {
    i == TtlAt(v6) || (!v6 && (i == 10 || i == 11))
  }

  /** One step: bridged (TTL kept) or routed (TTL minus one). */
  ghost predicate Step(v6: bool, before: Bytes, after: Bytes, routed: bool) {
    && |after| == |before|
    && (forall i :: 0 <= i < |before| && !Rewritable(v6, i) ==> after[i] == before[i])
    && TtlAt(v6) < |before|
    && before[TtlAt(v6)] as int == after[TtlAt(v6)] as int + if routed then 1 else 0
  }

  function Routed(steps: seq<bool>): nat {
    if steps == [] then 0 else Routed(steps[..|steps| - 1]) + if steps[|steps| - 1] then 1 else 0
  }

  /** The packet at each node along the way. */
  ghost predicate Travels(v6: bool, l3s: seq<Bytes>, steps: seq<bool>) {
    && |l3s| == |steps| + 1
    && forall i :: 0 <= i < |steps| ==> Step(v6, l3s[i], l3s[i + 1], steps[i])
  }

  /** The probe as sent: marked for the kernel, TTL 255. */
  predicate FreshProbe(v6: bool, l3: Bytes) {
    MarkL3(EtherOf(v6), l3).Some? && MarkL3(EtherOf(v6), l3).value.hop == 0
  }

  /** A step changes nothing the classifier reports but the hop. */
  lemma StepKeepsMark(v6: bool, before: Bytes, after: Bytes, routed: bool)
    requires Step(v6, before, after, routed) && MarkL3(EtherOf(v6), before).Some?
    ensures var m := MarkL3(EtherOf(v6), before).value;
            MarkL3(EtherOf(v6), after) == Some(m.(hop := m.hop + if routed then 1 else 0))
  {
    hide MarkL4, Walk, Marked;
    if v6 {
      assert after[8..24] == before[8..24] && after[24..40] == before[24..40] && after[40..] == before[40..];
    } else {
      var ihl := before[0] % 16 * 4;
      assert after[12..16] == before[12..16] && after[16..20] == before[16..20] && after[ihl..] == before[ihl..];
    }
  }

  /** Along the way the mark is the probe's, with the hop counting routed steps. */
  lemma {:induction false} MarkAlongTheWay(v6: bool, l3s: seq<Bytes>, steps: seq<bool>, i: nat)
    requires Travels(v6, l3s, steps) && FreshProbe(v6, l3s[0]) && i < |l3s|
    ensures Routed(steps[..i]) < 256
    ensures MarkL3(EtherOf(v6), l3s[i]) == Some(MarkL3(EtherOf(v6), l3s[0]).value.(hop := Routed(steps[..i])))
  {
    hide MarkL3;
    if i > 0 {
      MarkAlongTheWay(v6, l3s, steps, i - 1);
      assert Step(v6, l3s[i - 1], l3s[i], steps[i - 1]);
      StepKeepsMark(v6, l3s[i - 1], l3s[i], steps[i - 1]);
      assert steps[..i][..i - 1] == steps[..i - 1];
    }
  }

  /** A node on the way: its classifier, and the frame around the packet there. */
  datatype Node = Node(env: Env, packet: Packet, direction: byte, now: u64)

  /** The node's frame is the packet's own, and its classifier reads plain frames. */
  predicate SeesPlain(n: Node, t: L3) {
    n.env.config.Some? && n.env.config.value.mode != Vxlan && PlainL3(n.packet.frame) == Some(t)
  }

  /** The node is in the underlay: its frame carries the packet inside VXLAN, and its classifier looks there. */
  predicate SeesTunnelled(n: Node, t: L3) {
    && n.env.config.Some? && n.env.config.value.mode != Regular
    && VxlanBody(n.packet.frame).Some?
    && PlainL3(VxlanBody(n.packet.frame).value[8..]) == Some(t)
  }

  /** Node `n` sees the packet at position `i` of the way, plain or encapsulated. */
  predicate Sees(v6: bool, l3s: seq<Bytes>, i: nat, n: Node)
    requires i < |l3s|
  {
    var t := L3(EtherOf(v6), l3s[i]);
    SeesPlain(n, t) || SeesTunnelled(n, t)
  }

  /** The node only passes the packet on: it sees it encapsulated, or the destination is not one of its own. */
  predicate Transit(v6: bool, l3s: seq<Bytes>, i: nat, n: Node)
    requires i < |l3s|
  {
    && Sees(v6, l3s, i, n)
    && (MarkL3(EtherOf(v6), l3s[0]).Some? && MarkL3(EtherOf(v6), l3s[0]).value.dst in n.env.localIps ==>
          SeesTunnelled(n, L3(EtherOf(v6), l3s[i])))
  }

  lemma PlainMarkSeen(env: Env, p: Packet, etherType: u16, l3: Bytes)
    requires env.config.Some? && env.config.value.mode != Vxlan
    requires PlainL3(p.frame) == Some(L3(etherType, l3)) && MarkL3(etherType, l3).Some?
    ensures Sighted(env, p).Some? && Sighted(env, p).value.mark == MarkL3(etherType, l3).value
  {
    hide Strip, MarkL3, VxlanBody;
    if VxlanBody(p.frame).Some? {
      Agreement.TunnelNotPlain(p.frame, SkbVlan(p));
    }
  }

  lemma TunnelMarkSeen(env: Env, p: Packet, etherType: u16, l3: Bytes)
    requires env.config.Some? && env.config.value.mode != Regular && VxlanBody(p.frame).Some?
    requires PlainL3(VxlanBody(p.frame).value[8..]) == Some(L3(etherType, l3)) && MarkL3(etherType, l3).Some?
    ensures Sighted(env, p).Some? && Sighted(env, p).value.mark == MarkL3(etherType, l3).value
    ensures !Drops(env, p)
  {
    hide Strip, MarkL3, VxlanBody, RegularSighting;
  }

  lemma MarkSeen(v6: bool, l3s: seq<Bytes>, i: nat, n: Node)
    requires i < |l3s| && Sees(v6, l3s, i, n) && MarkL3(EtherOf(v6), l3s[i]).Some?
    ensures Sighted(n.env, n.packet).Some?
    ensures Sighted(n.env, n.packet).value.mark == MarkL3(EtherOf(v6), l3s[i]).value
    ensures SeesTunnelled(n, L3(EtherOf(v6), l3s[i])) ==> !Drops(n.env, n.packet)
  {
    hide MarkL3, PlainL3, Sighted, Drops, VxlanBody;
    if SeesTunnelled(n, L3(EtherOf(v6), l3s[i])) {
      TunnelMarkSeen(n.env, n.packet, EtherOf(v6), l3s[i]);
    } else {
      PlainMarkSeen(n.env, n.packet, EtherOf(v6), l3s[i]);
    }
  }

  /** Every VXLAN frame around the packet, over either underlay, is seen by a node that looks into VXLAN. */
  lemma UnderlaySees(
      v6: bool, l3s: seq<Bytes>, i: nat, n: Node, dmac: Mac, smac: Mac, ovlan: u16, ov6: bool, from: IP, to: IP,
      sport: u16, vni: u32, idmac: Mac, ismac: Mac, vlan: u16)
    requires i < |l3s| && n.env.config.Some? && n.env.config.value.mode != Regular
    requires var inner := FrameL2(idmac, ismac, vlan, EtherOf(v6), l3s[i]);
             n.packet.frame == Recovery.TunnelFrame(dmac, smac, ovlan, ov6, from, to, sport, VxlanEncap(vni, inner))
    ensures Sees(v6, l3s, i, n) && Transit(v6, l3s, i, n)
  {
    hide FrameL2, Strip, VxlanBody, IpPacket, Udp, VxlanEncap, MarkL3;
    var inner := FrameL2(idmac, ismac, vlan, EtherOf(v6), l3s[i]);
    StripFrameL2(idmac, ismac, vlan, EtherOf(v6), l3s[i]);
    TunnelParses(dmac, smac, ovlan, ov6, from, to, sport, VxlanEncap(vni, inner));
  }

  /** Every node on the way, the last one included, reports the probe under its run id and the routed steps so far. */
  lemma NodeObserves(v6: bool, l3s: seq<Bytes>, steps: seq<bool>, i: nat, n: Node)
    requires Travels(v6, l3s, steps) && FreshProbe(v6, l3s[0]) && i < |l3s| && Sees(v6, l3s, i, n)
    ensures var r := Report(n.env, n.packet, n.direction, n.now);
            && r.Some? && r.value.hop as int == Routed(steps[..i])
            && r.value.id == MarkL3(EtherOf(v6), l3s[0]).value.l4.id
            && r.value.dstIp == MarkL3(EtherOf(v6), l3s[0]).value.dst
  {
    hide MarkL3, Sees, Sighted, Travels, Drops;
    MarkAlongTheWay(v6, l3s, steps, i);
    MarkSeen(v6, l3s, i, n);
  }

  /**
   * Every transit node, in the underlay or not, lets the probe through and reports it under its run id, with the
   * hop equal to the routed steps so far. Outer routers take nothing from the inner TTL.
   */
  lemma TransitObserves(v6: bool, l3s: seq<Bytes>, steps: seq<bool>, i: nat, n: Node)
    requires Travels(v6, l3s, steps) && FreshProbe(v6, l3s[0]) && i < |l3s| && Transit(v6, l3s, i, n)
    ensures !Drops(n.env, n.packet)
    ensures var r := Report(n.env, n.packet, n.direction, n.now);
            && r.Some? && r.value.hop as int == Routed(steps[..i]) && r.value.action == 0
            && r.value.id == MarkL3(EtherOf(v6), l3s[0]).value.l4.id
            && r.value.dstIp == MarkL3(EtherOf(v6), l3s[0]).value.dst
  {
    hide MarkL3, Sees, SeesTunnelled, Sighted, Travels;
    MarkAlongTheWay(v6, l3s, steps, i);
    MarkSeen(v6, l3s, i, n);
  }

  // ---- at the collector ----

  lemma {:induction false} RoutedMonotone(steps: seq<bool>, i: nat, j: nat)
    requires i <= j <= |steps|
    ensures Routed(steps[..i]) <= Routed(steps[..j])
  {
    if i < j {
      RoutedMonotone(steps, i, j - 1);
      assert steps[..j][..j - 1] == steps[..j - 1];
    }
  }

  lemma {:induction false} RunFromHistory(h: seq<Observation>, id: string, cap: int, o: Observation)
    requires o in Collector.SinceBirth(h, id, cap)
    ensures o in h && o.id == id
  {
    if h != [] {
      var before, last := h[..|h| - 1], h[|h| - 1];
      assert h == before + [last];
      if o != last || last.id != id {
        RunFromHistory(before, id, cap, o);
      }
    }
  }

  /** What an agent ships for a record: the hop as recorded, beside the run id as text, its clock and its name. */
  function Shipped(r: Record, text: RunId -> string, timestamp: string, name: string): Observation {
    Observation(text(r.id), r.hop, timestamp, name)
  }

  /** A probe's way: the packet at each position, the steps between, and the node that sees it there. */
  datatype Way = Way(v6: bool, l3s: seq<Bytes>, steps: seq<bool>, nodes: seq<Node>)

  ghost predicate Seen(w: Way) {
    && Travels(w.v6, w.l3s, w.steps) && FreshProbe(w.v6, w.l3s[0])
    && |w.nodes| == |w.l3s|
    && forall i :: 0 <= i < |w.nodes| ==> Sees(w.v6, w.l3s, i, w.nodes[i])
  }

  /** `o` is what the node at position `i` of the way shipped. */
  ghost predicate ShippedFrom(w: Way, text: RunId -> string, o: Observation, i: nat) {
    && i < |w.nodes|
    && var n := w.nodes[i];
    && var r := Report(n.env, n.packet, n.direction, n.now);
    && r.Some? && o == Shipped(r.value, text, o.timestamp, o.node)
  }

  function WayId(w: Way): RunId
    requires w.l3s != [] && FreshProbe(w.v6, w.l3s[0])
  {
    MarkL3(EtherOf(w.v6), w.l3s[0]).value.l4.id
  }

  /** A shipped observation carries the way's run id and the routed steps up to its node. */
  lemma NodeShips(w: Way, text: RunId -> string, o: Observation, i: nat)
    requires Seen(w) && ShippedFrom(w, text, o, i)
    ensures o.id == text(WayId(w)) && i <= |w.steps| && o.hop as int == Routed(w.steps[..i])
  {
    hide Report, FreshProbe, Routed, Sees, Step, MarkL3;
    assert Sees(w.v6, w.l3s, i, w.nodes[i]);
    NodeObserves(w.v6, w.l3s, w.steps, i, w.nodes[i]);
  }

  /** Every observation of the run in the history was shipped from the node `at` assigns to it. */
  ghost predicate Traced(w: Way, text: RunId -> string, h: seq<Observation>, id: string, at: seq<nat>) {
    && |at| == |h|
    && forall n :: 0 <= n < |h| && h[n].id == id ==> ShippedFrom(w, text, h[n], at[n])
  }

  /**
   * The collector's answer for a run whose observations were all shipped from one way: it holds nothing else, and
   * two observations with a routed step between their nodes come in the order in which the probe passed those
   * nodes, in whatever order and however incompletely they arrived.
   */
  lemma PathIsTravelOrder(
      runs: Collector.Runs, order: seq<string>, h: seq<Observation>, cap: int, id: string,
      w: Way, text: RunId -> string, at: seq<nat>, out: seq<Observation>, x: nat, y: nat)
    requires Collector.Refines(runs, order, h, cap) && id in runs
    requires Seen(w) && Traced(w, text, h, id, at)
    requires Sorted(out) && StableOf(out, runs[id])
    requires x < |out| && y < |out|
    ensures out[x] in h && out[y] in h && (x < y ==> out[x].hop <= out[y].hop)
    ensures out[x].hop != out[y].hop ==>
              forall p, q :: 0 <= p < |h| && 0 <= q < |h| && h[p] == out[x] && h[q] == out[y] ==>
                (x < y <==> at[p] < at[q])
  {
    hide Collector.SinceBirth, Collector.Retained, WithKey, LexLess, Seen, ShippedFrom;
    StableIsPermutation(out, runs[id]);
    FromRun(runs, order, h, cap, id, out, x);
    FromRun(runs, order, h, cap, id, out, y);
    SortedHops(out, x, y);
    forall p, q | 0 <= p < |h| && 0 <= q < |h| && h[p] == out[x] && h[q] == out[y] && out[x].hop != out[y].hop
      ensures x < y <==> at[p] < at[q]
    {
      NodeShips(w, text, h[p], at[p]);
      NodeShips(w, text, h[q], at[q]);
      if at[p] <= at[q] {
        RoutedMonotone(w.steps, at[p], at[q]);
      } else {
        RoutedMonotone(w.steps, at[q], at[p]);
      }
    }
  }

  lemma SortedHops(out: seq<Observation>, x: nat, y: nat)
    requires Sorted(out) && x < |out| && y < |out|
    ensures x < y ==> out[x].hop <= out[y].hop
    ensures out[x].hop != out[y].hop ==> (x < y <==> out[x].hop < out[y].hop)
    ensures out[x].hop == out[y].hop && out[x].timestamp != out[y].timestamp ==>
              (x < y <==> LexLess(out[x].timestamp, out[y].timestamp))
  {
    hide LexLess;
    LexTotal(out[x].timestamp, out[y].timestamp);
    if x < y {
      assert !Less(out[y], out[x]);
    } else if y < x {
      assert !Less(out[x], out[y]);
    }
  }

  // ---- the way back ----

  lemma MarkedIdDecodes(q: Ip)
    requires MarkL4(q.l4, q.proto).Some? && Unmarshal(Exchange.PayloadOf(q)).Some?
    ensures MarkL4(q.l4, q.proto).value.id == Unmarshal(Exchange.PayloadOf(q)).value.id
  {
    var off := PayloadOffset(q.proto, q.l4).value;
    assert q.l4[off..][4..20] == q.l4[off + 4..off + 20];
  }

  /** The reply is a fresh probe of the same run: the hop count starts again at zero. */
  lemma ReplyRestarts(a: Agent, flows: Flows, v6: bool, l3: Bytes)
    requires MarkL3(EtherOf(v6), l3).Some? && ReplyTo(a, flows, Some(L3(EtherOf(v6), l3))).sent.Some?
    ensures var reply := ReplyTo(a, flows, Some(L3(EtherOf(v6), l3))).sent.value;
            && FreshProbe(v6, reply)
            && MarkL3(EtherOf(v6), reply).value.l4.id == MarkL3(EtherOf(v6), l3).value.l4.id
  {
    hide MarkL3, MarkL4, ParseIp, PlanL4, EncodeL3, Unmarshal, Exchange.PayloadOf, Recovery.RecordAddr, Marked,
      Agreement.AnsweredFlags, Verify;
    Recovery.ReplyIsObservable(a, flows, L3(EtherOf(v6), l3));
    var q := Admitted(a, EtherOf(v6), l3).value;
    Agreement.PlanIsMark(a, flows, q);
    Agreement.NotExt(q);
    Agreement.DirectMark(EtherOf(v6), l3);
    MarkedIdDecodes(q);
  }

  /** The way `back` starts with the reply to the packet at the end of the way `out`. */
  ghost predicate Answers(a: Agent, flows: Flows, out: Way, back: Way) {
    && out.l3s != [] && back.l3s != [] && back.v6 == out.v6
    && ReplyTo(a, flows, Some(L3(EtherOf(out.v6), out.l3s[|out.l3s| - 1]))).sent == Some(back.l3s[0])
  }

  /**
   * An answered run's path is not travel order: the return leg is reported under the same run id with hops from
   * zero, so of an outbound and a return observation the one nearer to the start of its own leg comes first, and at
   * equal distance the timestamp text decides. In particular what the replying side sees first precedes all that
   * was routed on the way out.
   */
  lemma ReturnLegInterleaves(
      a: Agent, flows: Flows, w: Way, back: Way, text: RunId -> string,
      o: Observation, i: nat, o2: Observation, j: nat, out: seq<Observation>, x: nat, y: nat)
    requires Seen(w) && Travels(back.v6, back.l3s, back.steps) && Answers(a, flows, w, back)
    requires |back.nodes| == |back.l3s|
    requires forall n :: 0 <= n < |back.nodes| ==> Sees(back.v6, back.l3s, n, back.nodes[n])
    requires ShippedFrom(w, text, o, i) && ShippedFrom(back, text, o2, j)
    requires Sorted(out) && x < |out| && y < |out| && out[x] == o && out[y] == o2
    ensures o2.id == o.id
    ensures i <= |w.steps| && j <= |back.steps|
    ensures Routed(w.steps[..i]) != Routed(back.steps[..j]) ==>
              (x < y <==> Routed(w.steps[..i]) < Routed(back.steps[..j]))
    ensures j == 0 && Routed(w.steps[..i]) > 0 ==> y < x
    ensures Routed(w.steps[..i]) == Routed(back.steps[..j]) && o.timestamp != o2.timestamp ==>
              (x < y <==> LexLess(o.timestamp, o2.timestamp))
  {
    hide ReplyTo, MarkL3, Sees, ShippedFrom, Less, Step, LexLess;
    var last := |w.l3s| - 1;
    MarkAlongTheWay(w.v6, w.l3s, w.steps, last);
    ReplyRestarts(a, flows, w.v6, w.l3s[last]);
    NodeShips(w, text, o, i);
    NodeShips(back, text, o2, j);
    SortedHops(out, x, y);
  }

  lemma {:induction false} AllFromHistory(h: seq<Observation>, id: string, o: Observation)
    requires o in Collector.AllOf(h, id)
    ensures o in h && o.id == id
  {
    if h != [] {
      var before, last := h[..|h| - 1], h[|h| - 1];
      assert h == before + [last];
      if o != last || last.id != id {
        AllFromHistory(before, id, o);
      }
    }
  }

  lemma FromRun(
      runs: Collector.Runs, order: seq<string>, h: seq<Observation>, cap: int, id: string, out: seq<Observation>,
      x: nat)
    requires Collector.Refines(runs, order, h, cap) && id in runs
    requires multiset(out) == multiset(runs[id]) && x < |out|
    ensures out[x] in h && out[x].id == id
  {
    hide Collector.Retained;
    assert out[x] in multiset(out);
    assert out[x] in runs[id];
    if cap >= 1 {
      RunFromHistory(h, id, cap, out[x]);
    } else {
      AllFromHistory(h, id, out[x]);
    }
  }
}
