/**
 * What the eBPF classifier should report for a frame, as pure functions of its bytes: the
 * reference the in-place parsers of module Kernel are proved against.
 */
module Sightings {
  import opened Wire
  import opened Address
  import opened Dissect
  import opened Tfmeta

  const IFACE_REGULAR: byte := 0
  const IFACE_VXLAN: byte := 1

  // ---- transport header and control block ----

  datatype L4Mark = L4Mark(
    proto: byte, sport: u16, dport: u16, tcpFlags: byte,
    id: RunId, timestamp: u64, deliver: byte, need: byte)

  function MarkMeta(l4: Bytes, off: nat, proto: byte, sport: u16, dport: u16, tcpFlags: byte): Option<L4Mark> {
    if off + META_SIZE > |l4| || U32At(l4, off) != MAGIC then None
    else Some(L4Mark(proto, sport, dport, tcpFlags, l4[off + 4..off + 20], LE64At(l4, off + 22), l4[off + 20],
                     l4[off + 21]))
  }

  function MarkL4(l4: Bytes, proto: byte): Option<L4Mark> {
    if proto == PROTO_ICMP || proto == PROTO_ICMPV6 then
      if |l4| < 8 then None else MarkMeta(l4, 8, proto, 0, 0, 0)
    else if proto == PROTO_UDP then
      if |l4| < 8 then None else MarkMeta(l4, 8, proto, U16At(l4, 0), U16At(l4, 2), 0)
    else if proto == PROTO_TCP then
      if |l4| < 20 || l4[12] / 16 * 4 < 20 then None
      else MarkMeta(l4, l4[12] / 16 * 4, proto, U16At(l4, 0), U16At(l4, 2), l4[13])
    else None
  }

  // ---- IPv6 extension headers ----

  /** The extension headers the classifier knows: Hop-by-Hop, Routing, Fragment, Destination Options. */
  predicate IsExt(nh: byte) {
    nh == 0 || nh == 43 || nh == 44 || nh == 60
  }

  datatype Transport = Transport(proto: byte, l4: Bytes)

  /** Step over one extension header; a non-first fragment has nothing after it. */
  function SkipExt(p: Bytes, nh: byte): (r: Option<Transport>)
    requires IsExt(nh)
    ensures r.Some? ==> |r.value.l4| + 8 <= |p| && r.value.l4 == p[|p| - |r.value.l4|..]
  {
    if nh == 44 then
      if |p| < 8 || U16At(p, 2) >= 8 then None else Some(Transport(p[0], p[8..]))
    else if |p| < 2 then None
    else
      var n := (p[1] as int + 1) * 8;
      if n > |p| then None else Some(Transport(p[0], p[n..]))
  }

  /** Section 4 of RFC 8200 restricted to those types: follow the chain to its end. */
  function Chain(p: Bytes, nh: byte): (r: Option<Transport>)
    ensures r.Some? ==> !IsExt(r.value.proto)
    decreases |p|
  {
    if !IsExt(nh) then Some(Transport(nh, p))
    else
      var s := SkipExt(p, nh);
      if s.None? then None else Chain(s.value.l4, s.value.proto)
  }

  /** How many extension headers the chain starts with. */
  function ExtCount(p: Bytes, nh: byte): nat
    decreases |p|
  {
    if !IsExt(nh) then 0
    else
      var s := SkipExt(p, nh);
      if s.None? then 1 else 1 + ExtCount(s.value.l4, s.value.proto)
  }

  /** The chain followed for at most `n` headers, as the unrolled loop does. */
  function Walk(p: Bytes, nh: byte, n: nat): Option<Transport>
    decreases n
  {
    if n == 0 || !IsExt(nh) then Some(Transport(nh, p))
    else
      var s := SkipExt(p, nh);
      if s.None? then None else Walk(s.value.l4, s.value.proto, n - 1)
  }

  /** The bounded walk is the whole chain when that is short, and stops on an extension header when not. */
  lemma {:induction false} WalkIsChain(p: Bytes, nh: byte, n: nat)
    ensures ExtCount(p, nh) <= n ==> Walk(p, nh, n) == Chain(p, nh)
    ensures ExtCount(p, nh) > n ==> Walk(p, nh, n).Some? && IsExt(Walk(p, nh, n).value.proto)
    ensures Walk(p, nh, n).Some? && ExtCount(p, nh) <= n ==>
              |Walk(p, nh, n).value.l4| + 8 * ExtCount(p, nh) <= |p|
    decreases n
  {
    hide SkipExt;
    if n > 0 && IsExt(nh) && SkipExt(p, nh).Some? {
      var s := SkipExt(p, nh).value;
      WalkIsChain(s.l4, s.proto, n - 1);
    }
  }

  /** A fragment header with a non-zero offset anywhere along the chain ends it without a transport header. */
  lemma {:induction false} FragmentRejected(p: Bytes, nh: byte)
    requires exists k | 0 <= k < |p| :: NonFirstFragmentAt(p, nh, k)
    ensures Chain(p, nh).None?
    decreases |p|
  {
    var k :| 0 <= k < |p| && NonFirstFragmentAt(p, nh, k);
    if k > 0 {
      var s := SkipExt(p, nh).value;
      var d := |p| - |s.l4|;
      assert NonFirstFragmentAt(s.l4, s.proto, k - d);
      FragmentRejected(s.l4, s.proto);
    }
  }

  /** Following the chain reaches, `k` octets in, a fragment header with a non-zero offset. */
  predicate NonFirstFragmentAt(p: Bytes, nh: byte, k: nat)
    decreases |p|
  {
    if k == 0 then nh == 44 && |p| >= 8 && U16At(p, 2) >= 8
    else
      && IsExt(nh)
      && SkipExt(p, nh).Some?
      && var s := SkipExt(p, nh).value;
      && var d := |p| - |s.l4|;
      && d <= k
      && NonFirstFragmentAt(s.l4, s.proto, k - d)
  }

  // ---- layer 3 ----

  datatype Mark = Mark(ipVersion: byte, src: Addr16, dst: Addr16, hop: byte, l4: L4Mark)

  function MarkIPv4(l3: Bytes): Option<Mark> {
    if |l3| < 20 || !Marked(l3[1]) || l3[0] / 16 != 4 then None
    else
      var ihl := l3[0] % 16 * 4;
      if ihl < 20 || ihl > |l3| then None
      else
        var m := MarkL4(l3[ihl..], l3[9]);
        if m.None? then None
        else Some(Mark(4, l3[12..16] + Zeros(12), l3[16..20] + Zeros(12), 255 - l3[8], m.value))
  }

  const MAX_EXT: nat := 4

  function MarkIPv6(l3: Bytes): Option<Mark> {
    if |l3| < 40 || l3[0] / 16 != 6 || !Marked(l3[0] % 16 * 16 + l3[1] / 16) then None
    else
      var t := Walk(l3[40..], l3[6], MAX_EXT);
      if t.None? then None
      else
        var m := MarkL4(t.value.l4, t.value.proto);
        if m.None? then None else Some(Mark(6, l3[8..24], l3[24..40], 255 - l3[7], m.value))
  }

  /** MarkIPv6 of the packet at offset `l3`, read at frame offsets. */
  lemma MarkIPv6At(frame: Bytes, l3: nat)
    requires l3 + 40 <= |frame|
    ensures var tc: byte := frame[l3] % 16 * 16 + frame[l3 + 1] / 16;
            var t := Walk(frame[l3 + 40..], frame[l3 + 6], MAX_EXT);
            var m := if t.None? then None else MarkL4(t.value.l4, t.value.proto);
            MarkIPv6(frame[l3..]) ==
            if frame[l3] / 16 != 6 || !Marked(tc) || t.None? || m.None? then None
            else Some(Mark(6, frame[l3 + 8..l3 + 24], frame[l3 + 24..l3 + 40], 255 - frame[l3 + 7], m.value))
  {
    hide MarkL4, Walk, Marked;
    var p := frame[l3..];
    assert p[8..24] == frame[l3 + 8..l3 + 24] && p[24..40] == frame[l3 + 24..l3 + 40];
    assert p[40..] == frame[l3 + 40..];
  }

  function MarkL3(etherType: u16, l3: Bytes): Option<Mark> {
    if etherType == ETH_IPV4 then MarkIPv4(l3)
    else if etherType == ETH_IPV6 then MarkIPv6(l3)
    else None
  }

  /**
   * The header walk against RFC 8200: with at most four extension headers layer 4 is the end of the
   * chain, and a packet with a longer chain is never reported.
   */
  lemma MarkIPv6FollowsChain(l3: Bytes)
    requires |l3| >= 40 && l3[0] / 16 == 6 && Marked(l3[0] % 16 * 16 + l3[1] / 16)
    ensures var t := Chain(l3[40..], l3[6]);
            MarkIPv6(l3).Some? <==>
              ExtCount(l3[40..], l3[6]) <= MAX_EXT && t.Some? && MarkL4(t.value.l4, t.value.proto).Some?
    ensures MarkIPv6(l3).Some? ==>
              Some(MarkIPv6(l3).value.l4) ==
              MarkL4(Chain(l3[40..], l3[6]).value.l4, Chain(l3[40..], l3[6]).value.proto)
  {
    WalkIsChain(l3[40..], l3[6], MAX_EXT);
  }

  // ---- whole frames ----

  datatype Sighting = Sighting(ifaceType: byte, vni: u32, vlan: u16, mark: Mark)

  /** The octets after the outer UDP header, when they are a VXLAN header with a valid VNI. */
  function VxlanBody(frame: Bytes): (r: Option<Bytes>)
    ensures r.Some? ==> |r.value| >= 8
  {
    var l2 := Strip(frame);
    if l2.None? || !ToVxlanPort(l2.value.etherType, frame[l2.value.off..]) then None
    else
      var vx := OuterUdp(l2.value.etherType, frame[l2.value.off..]).value.l4[8..];
      if |vx| < 8 || !HasVni(vx[0]) then None else Some(vx)
  }

  function VxlanSighting(frame: Bytes): Option<Sighting> {
    var vx := VxlanBody(frame);
    if vx.None? then None
    else
      var inner := vx.value[8..];
      var l2 := Strip(inner);
      if l2.None? then None
      else
        var m := MarkL3(l2.value.etherType, inner[l2.value.off..]);
        if m.None? then None
        else Some(Sighting(IFACE_VXLAN, U32At(vx.value, 4) / 0x100, l2.value.vlan, m.value))
  }

  function RegularSighting(frame: Bytes, skbVlan: u16): Option<Sighting> {
    var l2 := Strip(frame);
    if l2.None? then None
    else
      var m := MarkL3(l2.value.etherType, frame[l2.value.off..]);
      if m.None? then None
      else Some(Sighting(IFACE_REGULAR, 0, if l2.value.vlan == 0 then skbVlan else l2.value.vlan, m.value))
  }

  /** AUTO prefers the encapsulated reading and otherwise takes the plain one, each from scratch. */
  function Sight(mode: Mode, frame: Bytes, skbVlan: u16): Option<Sighting> {
    match mode
    case Vxlan => VxlanSighting(frame)
    case Regular => RegularSighting(frame, skbVlan)
    case Auto => if VxlanSighting(frame).Some? then VxlanSighting(frame) else RegularSighting(frame, skbVlan)
  }

  // ---- the record and the drop decision ----

  datatype Config = Config(mode: Mode, respond: bool, tcpRespond: bool)

  /** The maps the program reads; no config entry means it does nothing. */
  datatype Env = Env(config: Option<Config>, localIps: set<Addr16>, ifaceVni: map<u32, u32>)

  /** A packet as the hook sees it: bytes, device, stripped VLAN tag, tunnel key. */
  datatype Packet = Packet(frame: Bytes, ifindex: u32, vlanTci: Option<u16>, tunnelId: Option<u32>)

  datatype Record = Record(
    metaTimestamp: u64, captureNs: u64, id: RunId, srcIp: Addr16, dstIp: Addr16,
    vni: u32, ifindex: u32, srcPort: u16, dstPort: u16, vlanId: u16, ipVersion: byte, hop: byte,
    direction: byte, action: byte, protocol: byte, tcpFlags: byte, ifaceType: byte)

  function FromDevice(env: Env, s: Sighting, ifindex: u32): Sighting {
    if s.vni == 0 && ifindex in env.ifaceVni
    then s.(vni := env.ifaceVni[ifindex], ifaceType := IFACE_VXLAN) else s
  }

  function FromTunnel(s: Sighting, tunnelId: Option<u32>): Sighting {
    if s.vni == 0 && tunnelId.Some? && tunnelId.value != 0
    then s.(vni := tunnelId.value, ifaceType := IFACE_VXLAN) else s
  }

  /** A plain frame seen on a tunnel device takes the device's VNI, or else the packet's tunnel key. */
  function Enriched(env: Env, s: Sighting, ifindex: u32, tunnelId: Option<u32>): Sighting {
    FromTunnel(FromDevice(env, s, ifindex), tunnelId)
  }

  predicate Intercepts(cfg: Config, localIps: set<Addr16>, s: Sighting) {
    && s.mark.l4.need != 0
    && s.mark.l4.deliver == 0
    && s.mark.dst in localIps
    && s.ifaceType != IFACE_VXLAN
    && cfg.respond
    && (s.mark.l4.proto != PROTO_TCP || cfg.tcpRespond)
  }

  function SkbVlan(p: Packet): u16 {
    if p.vlanTci.Some? then p.vlanTci.value % 0x1000 else 0
  }

  function Sighted(env: Env, p: Packet): Option<Sighting> {
    if env.config.None? then None
    else
      var s := Sight(env.config.value.mode, p.frame, SkbVlan(p));
      if s.None? then None else Some(Enriched(env, s.value, p.ifindex, p.tunnelId))
  }

  function RecordOf(s: Sighting, ifindex: u32, direction: byte, action: byte, now: u64): Record {
    Record(s.mark.l4.timestamp, now, s.mark.l4.id, s.mark.src, s.mark.dst, s.vni, ifindex,
           s.mark.l4.sport, s.mark.l4.dport, s.vlan, s.mark.ipVersion, s.mark.hop,
           direction, action, s.mark.l4.proto, s.mark.l4.tcpFlags, s.ifaceType)
  }

  /** The record one packet yields, if any, and whether it is dropped. */
  predicate Drops(env: Env, p: Packet) {
    && Sighted(env, p).Some?
    && Intercepts(env.config.value, env.localIps, Sighted(env, p).value)
  }

  function Report(env: Env, p: Packet, direction: byte, now: u64): Option<Record> {
    var s := Sighted(env, p);
    if s.None? then None
    else Some(RecordOf(s.value, p.ifindex, direction, if Drops(env, p) then 1 else 0, now))
  }

  /** A frame read as encapsulated, or carrying a device or tunnel VNI, is never dropped. */
  lemma TunnelledNeverDropped(env: Env, p: Packet)
    requires env.config.Some?
    requires
      || (env.config.value.mode != Regular && VxlanSighting(p.frame).Some?)
      || p.ifindex in env.ifaceVni
      || (p.tunnelId.Some? && p.tunnelId.value != 0)
    ensures !Drops(env, p)
  {
  }
}
