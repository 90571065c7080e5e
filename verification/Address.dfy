/** Go's `net.IP` and the two 16-byte key layouts built from it. */
module Address {
  import opened Wire

  /** A `net.IP`: four octets, or sixteen. */
  type IP = s: Bytes | |s| == 4 || |s| == 16 witness [0, 0, 0, 0]

  type Addr16 = s: Bytes | |s| == 16 witness Zeros(16)

  type Mac = s: Bytes | |s| == 6 witness Zeros(6)

  predicate IsMapped(a: Bytes) {
    |a| == 16 && a[..10] == Zeros(10) && a[10] == 0xFF && a[11] == 0xFF
  }

  function MapV4(a: Bytes): (m: Addr16)
    requires |a| == 4
    ensures IsMapped(m) && m[12..] == a
  {
    Zeros(10) + [0xFF, 0xFF] + a
  }

  /** `ip.To4()`: nil unless the address is IPv4 or IPv4-mapped. */
  function To4(ip: IP): (r: Option<Bytes>)
    ensures r.Some? ==> |r.value| == 4
  {
    if |ip| == 4 then Some(ip) else if IsMapped(ip) then Some(ip[12..]) else None
  }

  /** `ip.To16()`, which is also what the printed form of an address determines. */
  function To16(ip: IP): Addr16 {
    if |ip| == 4 then MapV4(ip) else ip
  }

  predicate IsV6(ip: IP) {
    To4(ip).None?
  }

  /** The four octets `copy(field, ip.To4())` leaves in a zeroed field. */
  function Field4(ip: IP): (r: Bytes)
    ensures |r| == 4
  {
    if To4(ip).Some? then To4(ip).value else Zeros(4)
  }

  /** `ipKey16`: the layout of `observation.dst_ip` in the kernel. */
  function KernelKey(ip: IP): (k: Addr16) {
    if To4(ip).Some? then To4(ip).value + Zeros(12) else ip
  }

  /** `key16`: the layout of the responder's own local set. */
  function ResponderKey(ip: IP): Addr16 {
    To16(ip)
  }

  function KernelKeys(ips: seq<IP>): set<Addr16> {
    set i | 0 <= i < |ips| :: KernelKey(ips[i])
  }

  function ResponderKeys(ips: seq<IP>): set<Addr16> {
    set i | 0 <= i < |ips| :: ResponderKey(ips[i])
  }

  /** The destination key the kernel computes from packet bytes. */
  function PacketKey(dst: IP): Addr16 {
    if |dst| == 4 then dst + Zeros(12) else dst
  }

  /** To4 and To16 lose nothing together: equal To16 means equal To4. */
  lemma MappedIffV4(ip: IP)
    ensures IsMapped(To16(ip)) <==> To4(ip).Some?
    ensures To4(ip).Some? ==> To16(ip) == MapV4(To4(ip).value)
  {
    if |ip| == 16 && IsMapped(ip) {
      assert ip == ip[..10] + [ip[10], ip[11]] + ip[12..];
    }
  }

  /** The three layouts of an IPv4 address: mapped for Go and the responder, padded at the end for the kernel. */
  lemma IPv4Layouts(a: byte, b: byte, c: byte, d: byte)
    ensures To16([a, b, c, d]) == [0, 0, 0, 0, 0, 0, 0, 0, 0, 0, 0xFF, 0xFF, a, b, c, d]
    ensures ResponderKey([a, b, c, d]) == To16([a, b, c, d])
    ensures KernelKey([a, b, c, d]) == [a, b, c, d, 0, 0, 0, 0, 0, 0, 0, 0, 0, 0, 0, 0]
    ensures PacketKey([a, b, c, d]) == KernelKey([a, b, c, d]) == KernelKey(To16([a, b, c, d]))
  {
    var ip := [a, b, c, d];
    assert MapV4(ip)[12..] == ip;
  }

  /** Some address of the other family in `ips` has the kernel key of `dst`. */
  predicate Collides(ips: seq<IP>, dst: IP) {
    exists i ::
      && 0 <= i < |ips|
      && KernelKey(ips[i]) == PacketKey(dst)
      && (To4(ips[i]).Some? <==> |dst| == 16)
  }

  /**
   * Exactly how the two local sets differ when both are built from one list: the kernel's
   * misses an IPv4-mapped IPv6 destination and gains a destination that collides.
   */
  lemma LocalSetsDiffer(ips: seq<IP>, dst: IP)
    ensures PacketKey(dst) in KernelKeys(ips) <==>
            (ResponderKey(dst) in ResponderKeys(ips) && !IsMapped(dst)) || Collides(ips, dst)
  {
    forall i | 0 <= i < |ips|
      ensures KernelKey(ips[i]) == PacketKey(dst) <==>
              (ResponderKey(ips[i]) == ResponderKey(dst) && !IsMapped(dst)) ||
              (KernelKey(ips[i]) == PacketKey(dst) && (To4(ips[i]).Some? <==> |dst| == 16))
    {
      SameKey(ips[i], dst);
    }
    if PacketKey(dst) in KernelKeys(ips) {
      var i :| 0 <= i < |ips| && KernelKey(ips[i]) == PacketKey(dst);
    }
    if ResponderKey(dst) in ResponderKeys(ips) && !IsMapped(dst) {
      var i :| 0 <= i < |ips| && ResponderKey(ips[i]) == ResponderKey(dst);
      assert KernelKey(ips[i]) in KernelKeys(ips);
    }
    if Collides(ips, dst) {
      var i :| 0 <= i < |ips| && KernelKey(ips[i]) == PacketKey(dst) && (To4(ips[i]).Some? <==> |dst| == 16);
      assert KernelKey(ips[i]) in KernelKeys(ips);
    }
  }

  lemma SameKey(ip: IP, dst: IP)
    ensures ResponderKey(ip) == ResponderKey(dst) && !IsMapped(dst) ==>
              KernelKey(ip) == PacketKey(dst) && (To4(ip).Some? <==> |dst| == 4)
    ensures KernelKey(ip) == PacketKey(dst) && (To4(ip).Some? <==> |dst| == 4) ==>
              ResponderKey(ip) == ResponderKey(dst) && !IsMapped(dst)
  {
    MappedIffV4(ip);
    MappedIffV4(dst);
    if To4(ip).Some? && |dst| == 4 {
      var v := To4(ip).value;
      assert (v + Zeros(12))[..4] == v && (dst + Zeros(12))[..4] == dst;
      assert MapV4(v)[12..] == v && MapV4(dst)[12..] == dst;
    }
  }
}
