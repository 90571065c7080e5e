/**
 * Several taps on one host: `local_ips` is one map for all of them, while each tap's responder answers for its
 * own addresses only. What that means for a probe between two VMs of the host.
 */
module Hosts {
  import opened Wire
  import opened Address
  import opened Dissect
  import opened Replies
  import opened Exchange
  import opened Sightings
  import opened Agreement
  import opened Disagreement
  import Taps

  /** The responder of tap `x` beside the classifier, whose map the tap manager keeps. */
  ghost predicate OnTap(a: Agent, env: Env, s: Taps.State, x: string) {
    && SameSettings(a, env)
    && x in s.attached
    && a.local == ResponderKeys(s.attached[x].ips)
    && env.localIps == s.local
  }

  lemma OwnedUnmapped(m: Taps.Attached)
    ensures forall k :: k in Taps.Owned(m) ==> !IsMapped(k)
  {
    hide KernelKeys, IsMapped;
    forall k | k in Taps.Owned(m) ensures !IsMapped(k) {
      var name :| name in m && k in KernelKeys(m[name].ips);
      KernelKeysUnmapped(m[name].ips);
    }
  }

  /** The destination a frame of the plain path is judged by. */
  function Destination(p: Packet): Option<IP> {
    var t := PlainL3(p.frame);
    if t.None? then None
    else
      var q := ParseIp(t.value.etherType, t.value.bytes);
      if q.None? then None else Some(q.value.dst)
  }

  /**
   * What is dropped on any tap is addressed to some tap of the host or to a static address, but it is answered
   * there only if the destination is one of that tap's own addresses.
   */
  lemma AnsweredOnOwnTap(a: Agent, flows: Flows, env: Env, s: Taps.State, fixed: seq<IP>, x: string, p: Packet)
    requires OnTap(a, env, s, x) && Taps.Follows(s, KernelKeys(fixed)) && Drops(env, p)
    ensures Destination(p).Some?
    ensures PacketKey(Destination(p).value) in KernelKeys(fixed) + Taps.Owned(s.attached)
    ensures Reply(a, flows, p).Some? ==> PacketKey(Destination(p).value) in KernelKeys(s.attached[x].ips)
  {
    hide Drops, Reply, PlainL3, ParseIp, MarkL3, KernelKeys, ResponderKeys, Taps.Owned, IsMapped, Collides,
      ToVxlanPort, PayloadOf, VersionMatches, PacketKey, ResponderKey;
    DropIsPlain(env, p);
    var t := PlainL3(p.frame).value;
    MarkedIsParsed(t.etherType, t.bytes);
    DroppedIsAnswered(a, flows, env, p);
    var dst := ParseIp(t.etherType, t.bytes).value.dst;
    KernelKeysUnmapped(fixed);
    OwnedUnmapped(s.attached);
    LocalSetsDiffer(s.attached[x].ips, dst);
    if IsMapped(dst) {
      MappedKey(dst);
    }
  }

  lemma ListedApart(m: Taps.Attached, scans: seq<Taps.Scan>, fixed: set<Addr16>, x: string, own: seq<IP>, y: string)
    requires Taps.FromScans(m, scans) && Taps.DisjointTaps(scans, fixed)
    requires Taps.ListedIn(x, own, scans) && y in m && x != y
    ensures KernelKeys(own) !! KernelKeys(m[y].ips)
  {
    hide KernelKeys;
    Taps.NoKeys();
    if m[y].ips != [] {
      var i, j :| 0 <= i < |scans| && 0 <= j < |scans[i].ports| && scans[i].ports[j] == Taps.Port(x, own);
      var k, l :| 0 <= k < |scans| && 0 <= l < |scans[k].ports| && scans[k].ports[l] == Taps.Port(y, m[y].ips);
      assert scans[i].ports[j].name != scans[k].ports[l].name;
    }
  }

  /**
   * After any run of scans of disjoint taps, whatever failed on the way: the address of tap `y` is in the
   * kernel's set on every tap, and a probe to it that is dropped on tap `x` is never answered by `x`, whose
   * responder was started with the addresses some scan listed for it.
   */
  lemma NeighbourSwallowed(
      a: Agent, flows: Flows, env: Env, fixed: seq<IP>, scans: seq<Taps.Scan>, x: string, own: seq<IP>, y: string,
      p: Packet)
    requires Taps.Paired(scans) && Taps.DisjointTaps(scans, KernelKeys(fixed))
    requires SameSettings(a, env) && Taps.ListedIn(x, own, scans) && a.local == ResponderKeys(own)
    requires var s := Taps.AfterScans(true, Taps.State(map[], KernelKeys(fixed)), scans);
             && env.localIps == s.local && y in s.attached && x != y
             && Destination(p).Some? && PacketKey(Destination(p).value) in KernelKeys(s.attached[y].ips)
    ensures PacketKey(Destination(p).value) in env.localIps
    ensures Drops(env, p) ==> Reply(a, flows, p).None?
  {
    hide Drops, Reply, PlainL3, ParseIp, KernelKeys, ResponderKeys, Taps.Owned, Taps.DisjointTaps, Taps.AfterScans,
      Taps.LeakedBy, Taps.FromScans, Taps.ListedIn, PacketKey, IsMapped, Collides, ResponderKey, ToVxlanPort,
      PayloadOf;
    var s := Taps.AfterScans(true, Taps.State(map[], KernelKeys(fixed)), scans);
    Taps.RunFollows(true, KernelKeys(fixed), scans, scans);
    TapOwns(s.attached, y);
    ListedApart(s.attached, scans, KernelKeys(fixed), x, own, y);
    if Drops(env, p) {
      DroppedIsAnswered(a, flows, env, p);
      var dst := Destination(p).value;
      KernelKeysUnmapped(s.attached[y].ips);
      LocalSetsDiffer(own, dst);
      if IsMapped(dst) {
        MappedKey(dst);
      }
    }
  }

  lemma TapOwns(m: Taps.Attached, y: string)
    requires y in m
    ensures KernelKeys(m[y].ips) <= Taps.Owned(m)
  {
    hide KernelKeys;
  }

  // ---- two taps ----

  /** Taps "a" and "b" found by one scan. */
  function TwoTapScan(): Taps.Scan {
    Taps.Scan([Taps.Port("a", [CLIENT]), Taps.Port("b", [VM])], [Taps.Succeeds, Taps.Succeeds])
  }

  function TwoTapHost(): Taps.State {
    Taps.Reconciled(true, Taps.State(map[], {}), TwoTapScan().ports, TwoTapScan().rs)
  }

  lemma TwoTapKeys()
    ensures TwoTapHost().attached ==
            map["a" := Taps.Attachment(true, [CLIENT]), "b" := Taps.Attachment(true, [VM])]
    ensures TwoTapHost().local == KernelKeys([CLIENT, VM])
  {
    var empty, ports, rs := Taps.State(map[], {}), TwoTapScan().ports, TwoTapScan().rs;
    assert ports[..1] == [ports[0]] && rs[..1] == [rs[0]];
    Taps.SinglePort(true, empty, ports[0], rs[0]);
    var t := Taps.AttachAll(true, empty, ports, rs);
    assert t == Taps.AttachOne(true, Taps.AttachOne(true, empty, ports[0], rs[0]), ports[1], rs[1]);
    Taps.OneKey(CLIENT);
    Taps.OneKey(VM);
    Taps.KeysStep([CLIENT, VM], 1);
    assert [CLIENT, VM][..1] == [CLIENT] && [CLIENT, VM][..2] == [CLIENT, VM];
    assert Taps.Names(ports) == {"a", "b"} by { assert ports[0].name == "a" && ports[1].name == "b"; }
    assert t.attached.Keys - Taps.Names(ports) == {};
    Taps.NothingDetached(t);
  }

  lemma VmIsNotClient()
    ensures ResponderKey(AddrField(false, VM)) !in ResponderKeys([CLIENT])
    ensures PacketKey(AddrField(false, VM)) in KernelKeys([CLIENT, VM])
  {
    assert ResponderKey(VM)[15] == 2 && ResponderKey([CLIENT][0])[15] == 1;
    assert KernelKey([CLIENT, VM][1]) in KernelKeys([CLIENT, VM]);
  }

  /**
   * One VM probes another on the same host: the probe is dropped at the sender's tap, whose responder is silent,
   * although the receiver's would have answered it.
   */
  lemma SenderTapSwallows(flows: Flows)
    ensures var env, p := EnvFor(Regular, [CLIENT, VM]), GoodProbe();
            && env.localIps == TwoTapHost().local
            && OnTap(AgentFor(Regular, [CLIENT]), env, TwoTapHost(), "a")
            && OnTap(AgentFor(Regular, [VM]), env, TwoTapHost(), "b")
            && Drops(env, p)
            && Reply(AgentFor(Regular, [CLIENT]), flows, p).None?
            && Reply(AgentFor(Regular, [VM]), flows, p).Some?
  {
    hide Probe, Request, ParseIp, PlainL3, VersionMatches, IpPacket, Drops, Reply, MarkL4, HasVni, KernelKeys,
      ResponderKeys, Taps.Reconciled;
    TwoTapKeys();
    VmIsLocal();
    VmIsNotClient();
    RequestDropped(Regular, [CLIENT, VM], false, CLIENT, VM, 7, 1);
    RequestAnswered(flows, [VM], false, CLIENT, VM, 0);
    ProbeParses(false, PROTO_UDP, CLIENT, VM, Request(false, CLIENT, VM, 7, 0, 1));
    DroppedIsAnswered(AgentFor(Regular, [CLIENT]), flows, EnvFor(Regular, [CLIENT, VM]), GoodProbe());
  }
}
