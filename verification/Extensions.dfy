/**
 * IPv6 extension headers as data: what a sender writes (section 4 of RFC 8200), and that the classifier's walk
 * undoes it.
 */
module Extensions {
  import opened Wire
  import opened Address
  import opened Builders
  import opened Sightings

  /** Hop-by-Hop, Routing or Destination Options with their length octet, or a Fragment header. */
  datatype Ext =
    | Options(kind: byte, len: byte, body: Bytes)
    | Fragment(reserved: byte, offset: nat, low: nat, id: Bytes)

  /** A header of `len` is 8 * (len + 1) octets long; a fragment offset has 13 bits, with three below it. */
  predicate WellFormed(x: Ext) {
    match x
    case Options(kind, len, body) => (kind == 0 || kind == 43 || kind == 60) && |body| == 8 * (len as int + 1) - 2
    case Fragment(_, offset, low, id) => offset < 0x2000 && low < 8 && |id| == 4
  }

  function KindOf(x: Ext): byte {
    match x
    case Options(kind, _, _) => kind
    case Fragment(_, _, _, _) => 44
  }

  predicate NonFirst(x: Ext) {
    x.Fragment? && x.offset != 0
  }

  function Octets(x: Ext, next: byte): Bytes
    requires WellFormed(x)
  {
    match x
    case Options(_, len, body) => [next, len] + body
    case Fragment(reserved, offset, low, id) =>
      [next, reserved, (offset * 8 + low) / 0x100, (offset * 8 + low) % 0x100] + id
  }

  /** The type of the first header, or of the transport when there is none. */
  function FirstKind(xs: seq<Ext>, proto: byte): byte {
    if xs == [] then proto else KindOf(xs[0])
  }

  predicate AllWellFormed(xs: seq<Ext>) {
    forall i :: 0 <= i < |xs| ==> WellFormed(xs[i])
  }

  /** The headers one after the other, then the transport. */
  function Written(xs: seq<Ext>, proto: byte, l4: Bytes): Bytes
    requires AllWellFormed(xs)
  {
    if xs == [] then l4 else Octets(xs[0], FirstKind(xs[1..], proto)) + Written(xs[1..], proto, l4)
  }

  predicate IsTransport(proto: byte) {
    proto != 0 && proto != 43 && proto != 44 && proto != 60
  }

  /** One step of the walk takes off exactly one header, and stops at a fragment that is not the first. */
  lemma SkipsOne(x: Ext, next: byte, rest: Bytes)
    requires WellFormed(x)
    ensures IsExt(KindOf(x))
    ensures SkipExt(Octets(x, next) + rest, KindOf(x)) == if NonFirst(x) then None else Some(Transport(next, rest))
  {
    var p := Octets(x, next) + rest;
    match x {
      case Options(_, len, body) =>
        assert p[8 * (len as int + 1)..] == rest;
      case Fragment(_, offset, low, id) =>
        assert p[2] as int * 0x100 + p[3] as int == offset * 8 + low;
        assert p[8..] == rest;
    }
  }

  /** What is left after at most `n` headers: the transport, or a header still to be read. */
  function Remaining(xs: seq<Ext>, proto: byte, l4: Bytes, n: nat): Option<Transport>
    requires AllWellFormed(xs)
  {
    if exists i :: 0 <= i < |xs| && i < n && NonFirst(xs[i]) then None
    else if |xs| <= n then Some(Transport(proto, l4))
    else Some(Transport(KindOf(xs[n]), Written(xs[n..], proto, l4)))
  }

  lemma {:induction false} WalkReads(xs: seq<Ext>, proto: byte, l4: Bytes, n: nat)
    requires AllWellFormed(xs) && IsTransport(proto)
    ensures Walk(Written(xs, proto, l4), FirstKind(xs, proto), n) == Remaining(xs, proto, l4, n)
    decreases n
  {
    hide SkipExt, WellFormed, Octets;
    if n == 0 {
      assert xs[0..] == xs;
    } else if xs == [] {
      assert !IsExt(proto);
    } else {
      var rest := xs[1..];
      SkipsOne(xs[0], FirstKind(rest, proto), Written(rest, proto, l4));
      if !NonFirst(xs[0]) {
        WalkReads(rest, proto, l4, n - 1);
        ShiftRemaining(xs, proto, l4, n);
      }
    }
  }

  lemma ShiftRemaining(xs: seq<Ext>, proto: byte, l4: Bytes, n: nat)
    requires AllWellFormed(xs) && xs != [] && n > 0 && !NonFirst(xs[0])
    ensures Remaining(xs, proto, l4, n) == Remaining(xs[1..], proto, l4, n - 1)
  {
    hide WellFormed, Octets, NonFirst, Written;
    var rest := xs[1..];
    assert forall i :: 0 <= i < |rest| ==> rest[i] == xs[i + 1];
    if i :| 0 <= i < |xs| && i < n && NonFirst(xs[i]) {
      assert NonFirst(rest[i - 1]);
    }
    if |xs| > n {
      assert rest[n - 1..] == xs[n..] && rest[n - 1] == xs[n];
    }
  }

  /** The walk undoes the writing of up to four headers, unless one is a fragment that is not the first. */
  lemma WalkUndoesWriting(xs: seq<Ext>, proto: byte, l4: Bytes)
    requires AllWellFormed(xs) && IsTransport(proto) && |xs| <= 4
    ensures Walk(Written(xs, proto, l4), FirstKind(xs, proto), MAX_EXT) ==
            if exists i :: 0 <= i < |xs| && NonFirst(xs[i]) then None else Some(Transport(proto, l4))
  {
    hide Walk, Written, WellFormed, NonFirst;
    WalkReads(xs, proto, l4, 4);
  }

  /**
   * A marked IPv6 packet with any well-formed headers is reported exactly when there are at most four, none is a
   * fragment other than the first, and the transport behind them is marked; and it is reported by that transport.
   */
  lemma ExtendedPacketMarked(ttl: byte, src: IP, dst: IP, xs: seq<Ext>, proto: byte, l4: Bytes)
    requires AllWellFormed(xs) && IsTransport(proto)
    ensures var m := MarkL4(l4, proto);
            MarkL3(0x86DD, IPv6(0xF8, ttl, FirstKind(xs, proto), src, dst, Written(xs, proto, l4))) ==
            if |xs| <= 4 && (forall i :: 0 <= i < |xs| ==> !NonFirst(xs[i])) && m.Some?
            then Some(Mark(6, To16(src), To16(dst), 255 - ttl, m.value)) else None
  {
    hide MarkL4, Walk, Written, WellFormed, NonFirst, IPv6;
    var p := Written(xs, proto, l4);
    var first := FirstKind(xs, proto);
    WalkReads(xs, proto, l4, 4);
    var l3 := IPv6(0xF8, ttl, first, src, dst, p);
    assert l3[40..] == p;
    assert l3[0] == 0x6F && l3[1] == 0x80;
    assert Marked(0xF8);
    if |xs| > 4 {
      NoTransportThere(xs[4], Written(xs[4..], proto, l4));
    }
  }

  /** An extension header is no transport. */
  lemma NoTransportThere(x: Ext, p: Bytes)
    requires WellFormed(x)
    ensures MarkL4(p, KindOf(x)).None?
  {
  }
}
