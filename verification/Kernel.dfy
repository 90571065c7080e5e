/**
 * bpf/traceflow.c: parsers that fill one shared observation in place. Packet pointers are offsets
 * into the frame and `data_end` is its length, so every read is proved in bounds.
 */
module Kernel {
  import opened Wire
  import opened Address
  import opened Dissect
  import opened Tfmeta
  import opened Sightings

  const MF_DELIVER: byte := 1
  const MF_NEED_RESPONSE: byte := 2

  /** `*mflags` after a hit. */
  function MetaFlags(m: L4Mark): byte {
    (if m.deliver != 0 then MF_DELIVER else 0) + (if m.need != 0 then MF_NEED_RESPONSE else 0)
  }

  /** The fields a network header fills in, before anything is known about the transport header. */
  datatype Header = Header(ipVersion: byte, src: Addr16, dst: Addr16, hop: byte)

  /** What the IPv4 parser writes once it has come past its own checks. */
  function HeaderV4(l3: Bytes): Option<Header> {
    if |l3| < 20 || !Marked(l3[1]) || l3[0] / 16 != 4 || l3[0] % 16 < 5 || l3[0] % 16 * 4 > |l3| then None
    else Some(Header(4, l3[12..16] + Zeros(12), l3[16..20] + Zeros(12), 255 - l3[8]))
  }

  function HeaderV6(l3: Bytes): Option<Header> {
    if |l3| < 40 || l3[0] / 16 != 6 || !Marked(l3[0] % 16 * 16 + l3[1] / 16) then None
    else Some(Header(6, l3[8..24], l3[24..40], 255 - l3[7]))
  }

  function HeaderL3(etherType: u16, l3: Bytes): Option<Header> {
    if etherType == ETH_IPV4 then HeaderV4(l3) else if etherType == ETH_IPV6 then HeaderV6(l3) else None
  }

  /** The header the encapsulated reading gets to, whether or not it matches in the end. */
  function VxlanHeader(frame: Bytes): Option<Header> {
    var vx := VxlanBody(frame);
    if vx.None? then None
    else
      var l2 := Strip(vx.value[8..]);
      if l2.None? then None else HeaderL3(l2.value.etherType, vx.value[8..][l2.value.off..])
  }

  /** The interface type, VNI and VID it writes on the way. */
  function VxlanTags(frame: Bytes): Option<(byte, u32, u16)> {
    var vx := VxlanBody(frame);
    if vx.None? || Strip(vx.value[8..]).None? then None
    else Some((IFACE_VXLAN, U32At(vx.value, 4) / 0x100, Strip(vx.value[8..]).value.vlan))
  }

  function OrElse<T>(o: Option<T>, otherwise: T): T {
    if o.Some? then o.value else otherwise
  }

  /** struct observation, zero-initialised by its owner and written by every parser. */
  class Observation {
    var metaTimestamp: u64
    var captureNs: u64
    var id: RunId
    var srcIp: Addr16
    var dstIp: Addr16
    var vni: u32
    var ifindex: u32
    var srcPort: u16
    var dstPort: u16
    var vlanId: u16
    var ipVersion: byte
    var hop: byte
    var direction: byte
    var action: byte
    var protocol: byte
    var tcpFlags: byte
    var ifaceType: byte

    constructor (direction: byte, ifindex: u32)
      ensures this.direction == direction && this.ifindex == ifindex
    {
      this.direction, this.ifindex := direction, ifindex;
      metaTimestamp, captureNs, id, srcIp, dstIp := 0, 0, Zeros(16), Zeros(16), Zeros(16);
      vni, srcPort, dstPort, vlanId, ipVersion, hop := 0, 0, 0, 0, 0, 0;
      action, protocol, tcpFlags, ifaceType := 0, 0, 0, 0;
    }

    ghost predicate HoldsL4(m: L4Mark)
      reads this
    {
      && metaTimestamp == m.timestamp && id == m.id && srcPort == m.sport && dstPort == m.dport
      && tcpFlags == m.tcpFlags && protocol == m.proto
    }

    ghost predicate Holds(m: Mark)
      reads this
    {
      HoldsL4(m.l4) && ipVersion == m.ipVersion && srcIp == m.src && dstIp == m.dst && hop == m.hop
    }

    ghost predicate HoldsSighting(s: Sighting)
      reads this
    {
      Holds(s.mark) && ifaceType == s.ifaceType && vni == s.vni && vlanId == s.vlan
    }

    function HeaderPart(): Header
      reads this
    {
      Header(ipVersion, srcIp, dstIp, hop)
    }

    function TransportPart(): (u64, RunId, u16, u16, byte, byte)
      reads this
    {
      (metaTimestamp, id, srcPort, dstPort, tcpFlags, protocol)
    }

    function FramePart(): (byte, u32, u16)
      reads this
    {
      (ifaceType, vni, vlanId)
    }

    function Copy(): Record
      reads this
    {
      Record(metaTimestamp, captureNs, id, srcIp, dstIp, vni, ifindex, srcPort, dstPort, vlanId, ipVersion,
             hop, direction, action, protocol, tcpFlags, ifaceType)
    }
  }

  /** The level-2 filter at `payload`, and on a hit the fields it confirms. */
  method ParseMeta(frame: Bytes, l4: nat, payload: nat, proto: byte, sport: u16, dport: u16, tcpFlags: byte,
                   obs: Observation, mflags0: byte) returns (hit: bool, mflags: byte)
    requires l4 <= payload && l4 <= |frame|
    modifies obs`metaTimestamp, obs`id, obs`srcPort, obs`dstPort, obs`tcpFlags, obs`protocol
    ensures var m := MarkMeta(frame[l4..], payload - l4, proto, sport, dport, tcpFlags);
            && hit == m.Some?
            && (if hit then obs.HoldsL4(m.value) else obs.TransportPart() == old(obs.TransportPart()))
            && mflags == if hit then MetaFlags(m.value) else mflags0
  {
    mflags := mflags0;
    if payload + META_SIZE > |frame| { return false, mflags; }
    ghost var seg, off := frame[l4..], payload - l4;
    assert U32At(frame, payload) == U32At(seg, off);
    if U32At(frame, payload) != MAGIC { return false, mflags; }
    assert LE64At(frame, payload + 22) == LE64At(seg, off + 22);
    assert frame[payload + 4..payload + 20] == seg[off + 4..off + 20];
    obs.metaTimestamp := LE64At(frame, payload + 22);
    obs.id := frame[payload + 4..payload + 20];
    obs.srcPort, obs.dstPort, obs.tcpFlags, obs.protocol := sport, dport, tcpFlags, proto;
    mflags := (if frame[payload + 20] != 0 then MF_DELIVER else 0)
              + (if frame[payload + 21] != 0 then MF_NEED_RESPONSE else 0);
    hit := true;
  }

  method ParseL4AndMeta(frame: Bytes, l4: nat, proto: byte, obs: Observation, mflags0: byte)
    returns (hit: bool, mflags: byte)
    requires l4 <= |frame|
    modifies obs`metaTimestamp, obs`id, obs`srcPort, obs`dstPort, obs`tcpFlags, obs`protocol
    ensures hit == MarkL4(frame[l4..], proto).Some?
    ensures if hit then obs.HoldsL4(MarkL4(frame[l4..], proto).value)
            else obs.TransportPart() == old(obs.TransportPart())
    ensures mflags == if hit then MetaFlags(MarkL4(frame[l4..], proto).value) else mflags0
  {
    hide MarkMeta;
    var payload := l4;
    var sport: u16, dport: u16, tcpFlags: byte := 0, 0, 0;
    if proto == PROTO_ICMP || proto == PROTO_ICMPV6 {
      if l4 + 8 > |frame| { return false, mflags0; }
      payload := l4 + 8;
    } else if proto == PROTO_UDP {
      if l4 + 8 > |frame| { return false, mflags0; }
      sport, dport := U16At(frame, l4), U16At(frame, l4 + 2);
      payload := l4 + 8;
    } else if proto == PROTO_TCP {
      if l4 + 20 > |frame| { return false, mflags0; }
      sport, dport := U16At(frame, l4), U16At(frame, l4 + 2);
      tcpFlags := frame[l4 + 13];
      var doff := frame[l4 + 12] / 16 * 4;
      if doff < 20 { return false, mflags0; }
      payload := l4 + doff;
    } else {
      return false, mflags0;
    }
    hit, mflags := ParseMeta(frame, l4, payload, proto, sport, dport, tcpFlags, obs, mflags0);
  }

  method ParseIPv4Header(frame: Bytes, l3: nat, obs: Observation, mflags0: byte) returns (hit: bool, mflags: byte)
    requires l3 <= |frame|
    modifies obs`metaTimestamp, obs`id, obs`srcPort, obs`dstPort, obs`tcpFlags, obs`protocol
    modifies obs`ipVersion, obs`srcIp, obs`dstIp, obs`hop
    ensures hit == MarkIPv4(frame[l3..]).Some?
    ensures hit ==> obs.Holds(MarkIPv4(frame[l3..]).value)
    ensures obs.HeaderPart() == OrElse(HeaderV4(frame[l3..]), old(obs.HeaderPart()))
    ensures !hit ==> obs.TransportPart() == old(obs.TransportPart())
    ensures mflags == if hit then MetaFlags(MarkIPv4(frame[l3..]).value.l4) else mflags0
  {
    ghost var p := frame[l3..];
    hide MarkL4;
    mflags := mflags0;
    if l3 + 20 > |frame| { return false, mflags; }
    if !Marked(frame[l3 + 1]) { return false, mflags; }
    if frame[l3] / 16 != 4 { return false, mflags; }
    var ihl := frame[l3] % 16 * 4;
    if ihl < 20 { return false, mflags; }
    var l4 := l3 + ihl;
    if l4 > |frame| { return false, mflags; }
    obs.ipVersion := 4;
    obs.srcIp := frame[l3 + 12..l3 + 16] + Zeros(12);
    obs.dstIp := frame[l3 + 16..l3 + 20] + Zeros(12);
    obs.hop := 255 - frame[l3 + 8];
    assert p[12..16] == frame[l3 + 12..l3 + 16] && p[16..20] == frame[l3 + 16..l3 + 20];
    assert p[ihl..] == frame[l4..];
    hit, mflags := ParseL4AndMeta(frame, l4, frame[l3 + 9], obs, mflags);
  }

  /** One iteration of the extension-header loop. */
  method SkipExtension(frame: Bytes, at: nat, nh: byte) returns (ok: bool, nexthdr: byte, cur: nat)
    requires at <= |frame| && IsExt(nh)
    ensures ok == SkipExt(frame[at..], nh).Some?
    ensures ok ==> at + 8 <= cur <= |frame| && SkipExt(frame[at..], nh) == Some(Transport(nexthdr, frame[cur..]))
  {
    ghost var p := frame[at..];
    nexthdr, cur := nh, at;
    if nh == 0 || nh == 43 || nh == 60 {
      if at + 2 > |frame| { return false, nexthdr, cur; }
      var advance := (frame[at + 1] as int + 1) * 8;
      if at + advance > |frame| { return false, nexthdr, cur; }
      assert p[advance..] == frame[at + advance..];
      nexthdr, cur := frame[at], at + advance;
    } else {
      if at + 8 > |frame| { return false, nexthdr, cur; }
      assert U16At(frame, at + 2) == U16At(p, 2);
      if U16At(frame, at + 2) / 8 * 8 != 0 { return false, nexthdr, cur; }
      assert p[8..] == frame[at + 8..];
      nexthdr, cur := frame[at], at + 8;
    }
    ok := true;
  }

  /** The bounded loop over extension headers. */
  method WalkExtensions(frame: Bytes, start: nat, first: byte) returns (ok: bool, nexthdr: byte, cur: nat)
    requires start <= |frame|
    ensures ok == Walk(frame[start..], first, MAX_EXT).Some?
    ensures ok ==> start <= cur <= |frame|
    ensures ok ==> Walk(frame[start..], first, MAX_EXT) == Some(Transport(nexthdr, frame[cur..]))
  {
    hide SkipExt;
    nexthdr, cur := first, start;
    var i := 0;
    while i < 4
      invariant 0 <= i <= 4 && start <= cur <= |frame|
      invariant Walk(frame[start..], first, MAX_EXT) == Walk(frame[cur..], nexthdr, 4 - i)
    {
      if !IsExt(nexthdr) {
        break;
      }
      var skipped, nh, next := SkipExtension(frame, cur, nexthdr);
      if !skipped { return false, nexthdr, cur; }
      nexthdr, cur := nh, next;
      i := i + 1;
    }
    ok := true;
  }

  method ParseIPv6Header(frame: Bytes, l3: nat, obs: Observation, mflags0: byte) returns (hit: bool, mflags: byte)
    requires l3 <= |frame|
    modifies obs`metaTimestamp, obs`id, obs`srcPort, obs`dstPort, obs`tcpFlags, obs`protocol
    modifies obs`ipVersion, obs`srcIp, obs`dstIp, obs`hop
    ensures hit == MarkIPv6(frame[l3..]).Some?
    ensures hit ==> obs.Holds(MarkIPv6(frame[l3..]).value)
    ensures obs.HeaderPart() == OrElse(HeaderV6(frame[l3..]), old(obs.HeaderPart()))
    ensures !hit ==> obs.TransportPart() == old(obs.TransportPart())
    ensures mflags == if hit then MetaFlags(MarkIPv6(frame[l3..]).value.l4) else mflags0
  {
    hide MarkL4, Walk, Marked, MarkIPv6;
    ghost var p := frame[l3..];
    mflags := mflags0;
    if l3 + 40 > |frame| {
      ShortIPv6(frame[l3..]);
      return false, mflags;
    }
    MarkIPv6At(frame, l3);
    if frame[l3] / 16 != 6 { return false, mflags; }
    var tc: byte := frame[l3] % 16 * 16 + frame[l3 + 1] / 16;
    if !Marked(tc) { return false, mflags; }
    assert p[8..24] == frame[l3 + 8..l3 + 24] && p[24..40] == frame[l3 + 24..l3 + 40];
    obs.ipVersion := 6;
    obs.srcIp := frame[l3 + 8..l3 + 24];
    obs.dstIp := frame[l3 + 24..l3 + 40];
    obs.hop := 255 - frame[l3 + 7];
    var ok, nexthdr, cur := WalkExtensions(frame, l3 + 40, frame[l3 + 6]);
    if !ok { return false, mflags; }
    hit, mflags := ParseL4AndMeta(frame, cur, nexthdr, obs, mflags);
  }

  lemma ShortIPv6(l3: Bytes)
    requires |l3| < 40
    ensures MarkIPv6(l3).None?
  {
  }

  /** `parse_l2`: the unrolled loop runs twice, whatever the first iteration saw. */
  method ParseL2(frame: Bytes, start: nat) returns (ok: bool, etherType: u16, vlan: u16, l3: nat)
    requires start <= |frame|
    ensures ok == Strip(frame[start..]).Some?
    ensures ok ==> start + 14 <= l3 <= |frame| && Strip(frame[start..]) == Some(L2(etherType, vlan, l3 - start))
  {
    ghost var f := frame[start..];
    etherType, vlan, l3 := 0, 0, start;
    if start + 14 > |frame| { return false, etherType, vlan, l3; }
    etherType := U16At(frame, start + 12);
    assert etherType == U16At(f, 12);
    l3 := start + 14;
    for i := 0 to 2
      invariant start + 14 <= l3 <= |frame|
      invariant Strip(f) == Tags(f, l3 - start, etherType, vlan, 2 - i)
    {
      if IsTag(etherType) {
        if l3 + 4 > |frame| { return false, etherType, vlan, l3; }
        assert U16At(frame, l3) == U16At(f, l3 - start) && U16At(frame, l3 + 2) == U16At(f, l3 - start + 2);
        if vlan == 0 {
          vlan := U16At(frame, l3) % 0x1000;
        }
        etherType := U16At(frame, l3 + 2);
        l3 := l3 + 4;
      }
    }
    ok := true;
  }

  method ParseL3(frame: Bytes, l3: nat, etherType: u16, obs: Observation, mflags0: byte)
    returns (hit: bool, mflags: byte)
    requires l3 <= |frame|
    modifies obs`metaTimestamp, obs`id, obs`srcPort, obs`dstPort, obs`tcpFlags, obs`protocol
    modifies obs`ipVersion, obs`srcIp, obs`dstIp, obs`hop
    ensures hit == MarkL3(etherType, frame[l3..]).Some?
    ensures hit ==> obs.Holds(MarkL3(etherType, frame[l3..]).value)
    ensures obs.HeaderPart() == OrElse(HeaderL3(etherType, frame[l3..]), old(obs.HeaderPart()))
    ensures !hit ==> obs.TransportPart() == old(obs.TransportPart())
    ensures mflags == if hit then MetaFlags(MarkL3(etherType, frame[l3..]).value.l4) else mflags0
  {
    hide MarkIPv4, MarkIPv6, HeaderV4, HeaderV6;
    hit, mflags := false, mflags0;
    if etherType == ETH_IPV4 {
      hit, mflags := ParseIPv4Header(frame, l3, obs, mflags);
    } else if etherType == ETH_IPV6 {
      hit, mflags := ParseIPv6Header(frame, l3, obs, mflags);
    }
  }

  /** The outer IP header of `parse_vxlan`: where a whole UDP header starts. */
  method FindOuterUdp(frame: Bytes, ol3: nat, oetype: u16) returns (ok: bool, oudp: nat)
    requires ol3 <= |frame|
    ensures ok == (OuterUdp(oetype, frame[ol3..]).Some? && |OuterUdp(oetype, frame[ol3..]).value.l4| >= 8)
    ensures ok ==> oudp + 8 <= |frame| && OuterUdp(oetype, frame[ol3..]).value.l4 == frame[oudp..]
  {
    ghost var p := frame[ol3..];
    if oetype == ETH_IPV4 {
      if ol3 + 20 > |frame| { return false, 0; }
      if frame[ol3 + 9] != PROTO_UDP { return false, 0; }
      var oihl := frame[ol3] % 16 * 4;
      if oihl < 20 { return false, 0; }
      oudp := ol3 + oihl;
    } else if oetype == ETH_IPV6 {
      if ol3 + 40 > |frame| { return false, 0; }
      if frame[ol3 + 6] != PROTO_UDP { return false, 0; }
      oudp := ol3 + 40;
    } else {
      return false, 0;
    }
    if oudp + 8 > |frame| { return false, 0; }
    assert p[oudp - ol3..] == frame[oudp..];
    ok := true;
  }

  /** The outer headers of `parse_vxlan`: where the VXLAN header starts. */
  method FindVxlan(frame: Bytes) returns (ok: bool, vx: nat)
    ensures ok == VxlanBody(frame).Some?
    ensures ok ==> vx + 8 <= |frame| && VxlanBody(frame) == Some(frame[vx..])
  {
    hide Strip, OuterUdp, HasVni;
    var l2ok, oetype, _, ol3 := ParseL2(frame, 0);
    assert frame[0..] == frame;
    if !l2ok { return false, 0; }
    var udp, oudp := FindOuterUdp(frame, ol3, oetype);
    if !udp { return false, 0; }
    assert U16At(frame, oudp + 2) == U16At(frame[oudp..], 2);
    if U16At(frame, oudp + 2) != VXLAN_PORT { return false, 0; }
    vx := oudp + 8;
    assert frame[oudp..][8..] == frame[vx..];
    if vx + 8 > |frame| { return false, 0; }
    ok := HasVni(frame[vx]);
  }

  method ParseVxlan(frame: Bytes, obs: Observation, mflags0: byte) returns (hit: bool, mflags: byte)
    modifies obs
    ensures hit == VxlanSighting(frame).Some?
    ensures hit ==> obs.HoldsSighting(VxlanSighting(frame).value)
    ensures mflags == if hit then MetaFlags(VxlanSighting(frame).value.mark.l4) else mflags0
    // All that an attempt leaves behind, failed ones included: each part is written or as it was.
    ensures obs.FramePart() == OrElse(VxlanTags(frame), old(obs.FramePart()))
    ensures obs.HeaderPart() == OrElse(VxlanHeader(frame), old(obs.HeaderPart()))
    ensures !hit ==> obs.TransportPart() == old(obs.TransportPart())
    ensures obs.direction == old(obs.direction) && obs.ifindex == old(obs.ifindex)
  {
    hide MarkL3, VxlanBody, HeaderL3, Strip, MetaFlags;
    mflags := mflags0;
    var found, vx := FindVxlan(frame);
    if !found { return false, mflags; }
    assert U32At(frame, vx + 4) == U32At(frame[vx..], 4);
    assert frame[vx..][8..] == frame[vx + 8..];
    var ok, ietype, ivid, il3 := ParseL2(frame, vx + 8);
    if !ok { return false, mflags; }
    assert frame[vx + 8..][il3 - (vx + 8)..] == frame[il3..];
    obs.ifaceType := IFACE_VXLAN;
    obs.vni := U32At(frame, vx + 4) / 0x100;
    obs.vlanId := ivid;
    hit, mflags := ParseL3(frame, il3, ietype, obs, mflags);
  }

  method ParseRegular(frame: Bytes, obs: Observation, mflags0: byte, skbVlan: u16) returns (hit: bool, mflags: byte)
    modifies obs
    ensures hit == RegularSighting(frame, skbVlan).Some?
    ensures hit ==> obs.HoldsSighting(RegularSighting(frame, skbVlan).value)
    ensures mflags == if hit then MetaFlags(RegularSighting(frame, skbVlan).value.mark.l4) else mflags0
    ensures obs.direction == old(obs.direction) && obs.ifindex == old(obs.ifindex)
  {
    hide MarkL3, Strip, MetaFlags;
    mflags := mflags0;
    assert frame[0..] == frame;
    var ok, etype, vid, l3 := ParseL2(frame, 0);
    if !ok { return false, mflags; }
    if vid == 0 {
      vid := skbVlan;
    }
    obs.ifaceType := IFACE_REGULAR;
    obs.vni := 0;
    obs.vlanId := vid;
    hit, mflags := ParseL3(frame, l3, etype, obs, mflags);
  }

  /** The loaded program: its maps, the ring buffer it has filled, its two counters. */
  class Classifier {
    var env: Env
    var ring: seq<Record>
    var observed: nat
    var ringFull: nat

    constructor (env: Env)
      ensures this.env == env && ring == [] && observed == 0 && ringFull == 0
    {
      this.env, ring, observed, ringFull := env, [], 0, 0;
    }

    /** The mode selection shared by both entry points: one observation, up to two attempts. */
    method Select(mode: Mode, frame: Bytes, skbVlan: u16, obs: Observation) returns (matched: bool, mflags: byte)
      modifies obs
      ensures matched == Sight(mode, frame, skbVlan).Some?
      ensures matched ==> obs.HoldsSighting(Sight(mode, frame, skbVlan).value)
      ensures matched ==> mflags == MetaFlags(Sight(mode, frame, skbVlan).value.mark.l4)
      ensures obs.direction == old(obs.direction) && obs.ifindex == old(obs.ifindex)
    {
      hide VxlanSighting, RegularSighting;
      matched, mflags := false, 0;
      if mode == Vxlan || mode == Auto {
        matched, mflags := ParseVxlan(frame, obs, mflags);
      }
      if !matched && (mode == Regular || mode == Auto) {
        matched, mflags := ParseRegular(frame, obs, mflags, skbVlan);
      }
    }

    /** Device-VNI enrichment. */
    method TagFromDevice(obs: Observation, ifindex: u32, ghost s: Sighting)
      requires obs.HoldsSighting(s)
      modifies obs`vni, obs`ifaceType
      ensures obs.HoldsSighting(FromDevice(env, s, ifindex))
    {
      if obs.vni == 0 {
        if ifindex in env.ifaceVni {
          obs.vni := env.ifaceVni[ifindex];
          obs.ifaceType := IFACE_VXLAN;
        }
      }
    }

    /** Tunnel-key enrichment, on skbs only. */
    method TagFromTunnel(obs: Observation, tunnelId: Option<u32>, ghost s: Sighting)
      requires obs.HoldsSighting(s)
      modifies obs`vni, obs`ifaceType
      ensures obs.HoldsSighting(FromTunnel(s, tunnelId))
    {
      if obs.vni == 0 {
        if tunnelId.Some? && tunnelId.value != 0 {
          obs.vni := tunnelId.value;
          obs.ifaceType := IFACE_VXLAN;
        }
      }
    }

    /** Decide, stamp and submit: the common tail of `handle` and `traceflow_xdp`. */
    method Submit(cfg: Config, obs: Observation, mflags: byte, now: u64, reserved: bool, ghost s: Sighting)
      returns (drop: bool)
      requires obs as object != this
      requires obs.HoldsSighting(s) && mflags == MetaFlags(s.mark.l4)
      modifies this`ring, this`observed, this`ringFull, obs`action, obs`captureNs
      ensures drop == Intercepts(cfg, env.localIps, s)
      ensures obs.Copy() == RecordOf(s, obs.ifindex, obs.direction, if drop then 1 else 0, now)
      ensures ring == old(ring) + (if reserved then [obs.Copy()] else [])
      ensures observed - old(observed) + ringFull - old(ringFull) == 1
      ensures |ring| - old(|ring|) == observed - old(observed)
    {
      drop := mflags / 2 % 2 == 1 && mflags % 2 == 0 && obs.dstIp in env.localIps &&
              obs.ifaceType != IFACE_VXLAN && cfg.respond && (obs.protocol != PROTO_TCP || cfg.tcpRespond);
      obs.action := if drop then 1 else 0;
      obs.captureNs := now;
      if reserved {
        ring := ring + [obs.Copy()];
        observed := observed + 1;
      } else {
        ringFull := ringFull + 1;
      }
    }

    /** What one packet does to the program's state, whichever hook ran. */
    twostate predicate Effect(p: Packet, direction: byte, now: u64, reserved: bool)
      reads this
    {
      var r := Report(old(env), p, direction, now);
      && env == old(env)
      && ring == old(ring) + (if r.Some? && reserved then [r.value] else [])
      && observed == old(observed) + (if r.Some? && reserved then 1 else 0)
      && ringFull == old(ringFull) + (if r.Some? && !reserved then 1 else 0)
    }

    /** `handle`: the TC classifier. `reserved` is the outcome of bpf_ringbuf_reserve. */
    method HandleTc(p: Packet, direction: byte, now: u64, reserved: bool) returns (shot: bool)
      modifies this
      ensures shot == Drops(old(env), p)
      ensures Effect(p, direction, now, reserved)
    {
      hide Sight;
      if env.config.None? { return false; }
      var cfg := env.config.value;
      var obs := new Observation(direction, p.ifindex);
      var skbVlan: u16 := if p.vlanTci.Some? then p.vlanTci.value % 0x1000 else 0;
      var matched, mflags := Select(cfg.mode, p.frame, skbVlan, obs);
      if !matched { return false; }
      ghost var s := Sight(cfg.mode, p.frame, skbVlan).value;
      TagFromDevice(obs, p.ifindex, s);
      TagFromTunnel(obs, p.tunnelId, FromDevice(env, s, p.ifindex));
      shot := Submit(cfg, obs, mflags, now, reserved, Enriched(env, s, p.ifindex, p.tunnelId));
    }

    /**
     * `traceflow_xdp`: no stripped tag and no tunnel key at this hook. It is proved against the same
     * report, drop decision and counters as an ingress TC run without those two.
     */
    method HandleXdp(frame: Bytes, ifindex: u32, now: u64, reserved: bool) returns (dropped: bool)
      modifies this
      ensures dropped == Drops(old(env), Packet(frame, ifindex, None, None))
      ensures Effect(Packet(frame, ifindex, None, None), 0, now, reserved)
    {
      hide Sight;
      if env.config.None? { return false; }
      var cfg := env.config.value;
      var obs := new Observation(0, ifindex);
      var matched, mflags := Select(cfg.mode, frame, 0, obs);
      if !matched { return false; }
      ghost var s := Sight(cfg.mode, frame, 0).value;
      TagFromDevice(obs, ifindex, s);
      dropped := Submit(cfg, obs, mflags, now, reserved, FromDevice(env, s, ifindex));
    }
  }

  /** One packet through both hooks of identically loaded programs: same record, counters and verdict. */
  method BothHooks(frame: Bytes, ifindex: u32, now: u64, reserved: bool, tc: Classifier, xdp: Classifier)
    returns (shot: bool, dropped: bool)
    requires tc != xdp && tc.env == xdp.env
    requires tc.ring == xdp.ring && tc.observed == xdp.observed && tc.ringFull == xdp.ringFull
    modifies tc, xdp
    ensures shot == dropped
    ensures tc.ring == xdp.ring && tc.observed == xdp.observed && tc.ringFull == xdp.ringFull
  {
    shot := tc.HandleTc(Packet(frame, ifindex, None, None), 0, now, reserved);
    dropped := xdp.HandleXdp(frame, ifindex, now, reserved);
  }
}
