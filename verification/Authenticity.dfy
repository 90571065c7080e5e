/** What an HMAC key buys: over any run, replies are authenticated echoes and never amplify. */
module Authenticity {
  import opened Wire
  import opened Address
  import opened Dissect
  import opened Tfmeta
  import opened Replies
  import opened Exchange
  import Sightings

  /** One frame read by the responder's loop, with the VLAN the NIC stripped from it. */
  datatype Event = Event(frame: Bytes, aux: u16)

  /** The flow table after a run of frames. */
  function FlowsAfter(a: Agent, flows: Flows, es: seq<Event>): Flows {
    if es == [] then flows
    else
      var e := es[|es| - 1];
      Handle(a, FlowsAfter(a, flows, es[..|es| - 1]), e.frame, e.aux).flows
  }

  /** What the run sends in answer to its `i`-th frame. */
  function SentAt(a: Agent, flows: Flows, es: seq<Event>, i: nat): Option<Bytes>
    requires i < |es|
  {
    Handle(a, FlowsAfter(a, flows, es[..i]), es[i].frame, es[i].aux).sent
  }

  /** The packet inside a reply frame, where the client looks for it: encapsulated or plain. */
  function ReplyPacket(f: Bytes): Option<L3> {
    var body := Sightings.VxlanBody(f);
    if body.Some? then PlainL3(body.value[8..]) else PlainL3(f)
  }

  /** `echo` is the control block `payload` with both flags cleared and everything else kept. */
  predicate EchoesMeta(payload: Bytes, echo: Bytes) {
    && |echo| == |payload|
    && Unmarshal(payload).Some?
    && Unmarshal(echo) == Some(Unmarshal(payload).value.(deliver := false, needResponse := false))
    && echo[20] == 0 && echo[21] == 0
  }

  /** The octets after the control block and its HMAC. */
  function Trailer(key: Bytes, p: Bytes): Bytes {
    var n := if |key| == 0 then META_SIZE else SIGNED_SIZE;
    if |p| < n then [] else p[n..]
  }

  predicate AuthenticReply(a: Agent, request: L3, reply: L3) {
    var q, r := ParseIp(request.etherType, request.bytes), ParseIp(reply.etherType, reply.bytes);
    && q.Some? && r.Some?
    && ResponderKey(q.value.dst) in a.local
    && r.value.src == q.value.dst && r.value.dst == q.value.src
    && Verify(a.hmac, PayloadOf(q.value), a.key)
    && Verify(a.hmac, PayloadOf(r.value), a.key)
    && EchoesMeta(PayloadOf(q.value), PayloadOf(r.value))
    && Trailer(a.key, PayloadOf(r.value)) == Trailer(a.key, PayloadOf(q.value))
    && |reply.bytes| <= |request.bytes|
  }

  lemma EchoIsAuthentic(a: Agent, payload: Bytes)
    requires Gate(a, payload)
    ensures Verify(a.hmac, payload, a.key) && Verify(a.hmac, EchoOf(a, payload), a.key)
    ensures EchoesMeta(payload, EchoOf(a, payload))
    ensures Trailer(a.key, EchoOf(a, payload)) == Trailer(a.key, payload)
  {
    hide Sanitized;
    SanitizedIsAuthentic(a.hmac, a.key, payload);
  }

  /** Headers without options are never longer than the request's. */
  lemma ReplyLength(q: Ip, r: L4Reply, etherType: u16, l3: Bytes)
    requires ParseIp(etherType, l3) == Some(q) && PayloadOffset(q.proto, q.l4).Some?
    requires |r.payload| == |PayloadOf(q)| && (r.Segment? <==> q.proto == PROTO_TCP)
    ensures |EncodeL3(q, r)| <= |l3|
  {
    hide EncodeL4;
    EncodedL4(q.v6, q.dst, q.src, r);
  }

  lemma ReplyIsAuthentic(a: Agent, flows: Flows, t: L3)
    requires ReplyTo(a, flows, Some(t)).sent.Some?
    ensures AuthenticReply(a, t, L3(t.etherType, ReplyTo(a, flows, Some(t)).sent.value))
  {
    hide PlanL4, EncodeL3, EncodeL4, Gate, EchoOf, EchoesMeta, Verify, Trailer, PayloadOffset, ParseIp;
    var q := Admitted(a, t.etherType, t.bytes).value;
    var r := PlanL4(a, flows, q).reply.value;
    ReplyShape(a, flows, q);
    EchoIsAuthentic(a, PayloadOf(q));
    ReplyLength(q, r, t.etherType, t.bytes);
    FamilyOf(t.etherType, t.bytes);
    ParseReply(q, r);
    EncodedL4(q.v6, q.dst, q.src, r);
    ParsedFields(t.etherType, t.bytes);
  }

  /** A reply frame carries the reply packet its receiver will find. */
  lemma EmittedPacket(a: Agent, flows: Flows, frame: Bytes, aux: u16)
    requires Handle(a, flows, frame, aux).sent.Some?
    ensures Target(a.mode, frame).Some? && ReplyTo(a, flows, Target(a.mode, frame)).sent.Some?
    ensures ReplyPacket(Handle(a, flows, frame, aux).sent.value) ==
            Some(L3(Target(a.mode, frame).value.etherType, ReplyTo(a, flows, Target(a.mode, frame)).sent.value))
  {
    hide HandleRegular, HandleVxlan, PlainL3, ReplyL3, Quiet, ParseIp, Sightings.VxlanBody;
    if a.mode == Vxlan || (a.mode == Auto && IsVxlanFrame(frame)) {
      EmittedTunnel(a, flows, frame, aux);
    } else {
      EmittedPlain(a, flows, frame, aux);
      var t := PlainL3(frame).value;
      ReplyToIsQuiet(a, flows, t);
      NotVxlanBody(HandleRegular(a, flows, frame, aux).sent.value);
    }
  }

  /**
   * Over any run: every frame sent was drawn by a packet to a local address whose payload verifies, and
   * carries back, from that address to the sender, the same run id, timestamp and trailing octets with
   * both flags clear, itself verifying, in a packet no longer than the request.
   */
  lemma RunIsAuthentic(a: Agent, flows: Flows, es: seq<Event>, i: nat)
    requires i < |es| && SentAt(a, flows, es, i).Some?
    ensures Target(a.mode, es[i].frame).Some? && ReplyPacket(SentAt(a, flows, es, i).value).Some?
    ensures AuthenticReply(a, Target(a.mode, es[i].frame).value, ReplyPacket(SentAt(a, flows, es, i).value).value)
  {
    hide Handle, Target, ReplyPacket, ReplyTo, AuthenticReply;
    var before := FlowsAfter(a, flows, es[..i]);
    EmittedPacket(a, before, es[i].frame, es[i].aux);
    ReplyIsAuthentic(a, before, Target(a.mode, es[i].frame).value);
  }
}
