/** The responder's TCP state machine over whole runs of segments (section 3.4 of RFC 9293). */
module Connections {
  import opened Wire
  import opened Address
  import opened Dissect
  import opened Replies
  import opened Tfmeta
  import opened Exchange
  import opened Authenticity

  /** The segment draws a reply. */
  predicate Answered(a: Agent, s: Seg) {
    !IsRST(s.flags) && Gate(a, s.data) && (Opens(s) || Closes(s) || Pushes(s))
  }

  /** The flow table after a run of segments. */
  function After(a: Agent, flows: Flows, segs: seq<Seg>): Flows {
    if segs == [] then flows
    else PlanSeg(a, After(a, flows, segs[..|segs| - 1]), segs[|segs| - 1]).flows
  }

  function ReplyAt(a: Agent, flows: Flows, segs: seq<Seg>, i: nat): (r: Option<L4Reply>)
    requires i < |segs|
    ensures r.Some? ==> r.value.Segment?
  {
    PlanSeg(a, After(a, flows, segs[..i]), segs[i]).reply
  }

  lemma AfterStep(a: Agent, flows: Flows, segs: seq<Seg>, i: nat)
    requires i < |segs|
    ensures After(a, flows, segs[..i + 1]) == PlanSeg(a, After(a, flows, segs[..i]), segs[i]).flows
  {
    assert segs[..i + 1][..i] == segs[..i];
  }

  /** A flow is one pair of addresses and one pair of ports: segments share a key exactly when they share all four. */
  lemma FlowsKeptApart(q: Ip, r: Ip)
    requires SegOf(q).Some? && SegOf(r).Some? && |q.src| == |r.src| && |q.dst| == |r.dst|
    ensures SegOf(q).value.key == SegOf(r).value.key <==>
            && q.src == r.src && q.dst == r.dst
            && q.l4[0] == r.l4[0] && q.l4[1] == r.l4[1] && q.l4[2] == r.l4[2] && q.l4[3] == r.l4[3]
  {
    assert |q.src| == 4 ==> MapV4(q.src)[12..] == q.src && MapV4(r.src)[12..] == r.src;
    assert |q.dst| == 4 ==> MapV4(q.dst)[12..] == q.dst && MapV4(r.dst)[12..] == r.dst;
    if U16At(q.l4, 0) == U16At(r.l4, 0) && U16At(q.l4, 2) == U16At(r.l4, 2) {
      LowOctet(q.l4[1], q.l4[0], r.l4[1], r.l4[0]);
      LowOctet(q.l4[3], q.l4[2], r.l4[3], r.l4[2]);
    }
  }

  /**
   * The order of the cases, by the bits of the flag octet: RST before anything, then SYN without ACK, FIN, PSH. Each
   * reply's flags and acknowledgement, and what happens to the flow.
   */
  lemma SwitchOrder(
      a: Agent, flows: Flows, s: Seg, fin: bool, syn: bool, rst: bool, psh: bool, ack: bool, rest: nat)
    requires s.flags as int == Bit(fin) + 2 * Bit(syn) + 4 * Bit(rst) + 8 * Bit(psh) + 16 * Bit(ack) + 32 * rest
    ensures var p, n := PlanSeg(a, flows, s), |s.data|;
            if rst then p.reply.None? && p.flows == flows - {s.key}
            else if !Gate(a, s.data) || !((syn && !ack) || fin || psh) then p.reply.None? && p.flows == flows
            else
              && p.reply.Some? && p.reply.value.payload == EchoOf(a, s.data)
              && p.reply.value.sport == s.key.dport && p.reply.value.dport == s.key.sport
              && (if syn && !ack then
                    && p.reply.value.flags == 0x12 && p.reply.value.ack as int == (s.seqno as int + 1) % 0x1_0000_0000
                    && s.key in p.flows
                  else if fin then
                    && p.reply.value.flags == 0x11
                    && p.reply.value.ack as int == (s.seqno as int + n + 1) % 0x1_0000_0000
                    && p.flows == flows - {s.key}
                  else
                    && p.reply.value.flags == 0x18 && p.reply.value.ack as int == (s.seqno as int + n) % 0x1_0000_0000
                    && s.key in p.flows)
  {
    hide Gate, EchoOf, IsFIN, IsSYN, IsRST, IsPSH, IsACK, ServerNext;
    FlagBits(s.flags, fin, syn, rst, psh, ack, rest);
  }

  // ---- sequence numbers ----

  /** The sequence space a reply takes up: SYN and FIN count one each. */
  function SeqLen(r: L4Reply): nat
    requires r.Segment?
  {
    |r.payload| + (if IsSYN(r.flags) then 1 else 0) + (if IsFIN(r.flags) then 1 else 0)
  }

  /** What a planned reply to `s` takes up of the sequence space of flow `k`. */
  function Taken(p: Plan, s: Seg, k: FlowKey): nat
    requires p.reply.Some? ==> p.reply.value.Segment?
  {
    if s.key == k && p.reply.Some? then SeqLen(p.reply.value) else 0
  }

  /** The table was over its cap and an answered SYN emptied it. */
  predicate Resets(a: Agent, flows: Flows, s: Seg) {
    Answered(a, s) && Opens(s) && |flows| > FLOW_CAP
  }

  /** Neither a table reset nor a SYN, FIN or RST that acts on flow `k`. */
  predicate Keeps(a: Agent, flows: Flows, s: Seg, k: FlowKey) {
    && !Resets(a, flows, s)
    && (s.key == k ==> !IsRST(s.flags) && !(Answered(a, s) && !Pushes(s)))
  }

  /** Everything strictly between `start` and `end` keeps flow `k`. */
  ghost predicate Undisturbed(a: Agent, flows: Flows, segs: seq<Seg>, k: FlowKey, start: nat, end: nat)
    requires end <= |segs|
  {
    forall i :: start < i < end ==> Keeps(a, After(a, flows, segs[..i]), segs[i], k)
  }

  /** The sequence space the replies on `k` at positions `start` up to `end` take up together. */
  function Consumed(a: Agent, flows: Flows, segs: seq<Seg>, k: FlowKey, start: nat, end: nat): nat
    requires start <= end <= |segs|
    decreases end
  {
    if start == end then 0
    else
      Consumed(a, flows, segs, k, start, end - 1) +
      Taken(PlanSeg(a, After(a, flows, segs[..end - 1]), segs[end - 1]), segs[end - 1], k)
  }

  lemma Add32Nothing(x: u32)
    ensures Add32(x, 0) == x
  {
  }

  lemma Add32Twice(a: int, b: int, c: int)
    ensures Add32(Add32(a, b), c) == Add32(a, b + c)
  {
  }

  lemma InertStep(a: Agent, flows: Flows, s: Seg)
    requires !IsRST(s.flags) && !Answered(a, s)
    ensures PlanSeg(a, flows, s) == Plan(flows, None)
  {
    hide Gate, EchoOf;
  }

  lemma OtherFlowKept(a: Agent, flows: Flows, s: Seg, k: FlowKey)
    requires s.key != k && !Resets(a, flows, s)
    ensures var next := PlanSeg(a, flows, s).flows;
            && (k in next <==> k in flows)
            && (k in flows ==> next[k] == flows[k])
            && ServerNext(a, next, k) == ServerNext(a, flows, k)
  {
    hide Gate, EchoOf, Add32, IsRST, IsFIN, IsPSH, IsSYN, IsACK;
  }

  lemma OwnPush(a: Agent, flows: Flows, s: Seg)
    requires Answered(a, s) && Pushes(s)
    ensures var p := PlanSeg(a, flows, s);
            && p.reply.Some? && s.key in p.flows
            && p.reply.value.seqno == ServerNext(a, flows, s.key)
            && p.flows[s.key] == Add32(ServerNext(a, flows, s.key), SeqLen(p.reply.value))
            && ServerNext(a, p.flows, s.key) == p.flows[s.key]
  {
    hide Gate, EchoOf, Add32;
  }

  /** One kept segment moves the flow's next number by exactly what its reply takes up. */
  lemma KeptStep(a: Agent, flows: Flows, s: Seg, k: FlowKey)
    requires Keeps(a, flows, s, k)
    ensures var p := PlanSeg(a, flows, s);
            && (k in flows ==> k in p.flows)
            && ServerNext(a, p.flows, k) == Add32(ServerNext(a, flows, k), Taken(p, s, k))
            && (s.key == k && p.reply.Some? ==> p.reply.value.seqno == ServerNext(a, flows, k))
  {
    hide Gate, EchoOf, Add32, ServerNext, IsRST, IsFIN, IsPSH, IsSYN, IsACK;
    if s.key != k {
      OtherFlowKept(a, flows, s, k);
    } else if Answered(a, s) {
      OwnPush(a, flows, s);
    } else {
      InertStep(a, flows, s);
    }
    Add32Nothing(ServerNext(a, flows, k));
  }

  /** A segment that does not keep the flow sends its next number back near the initial one. */
  lemma DisturbedStep(a: Agent, flows: Flows, s: Seg, k: FlowKey)
    requires !Keeps(a, flows, s, k)
    ensures var p := PlanSeg(a, flows, s);
            || ServerNext(a, p.flows, k) == Add32(a.isn(k), 1)
            || (Taken(p, s, k) > 0 && ServerNext(a, p.flows, k) == Add32(a.isn(k), Taken(p, s, k)))
  {
    hide Gate, EchoOf;
  }

  /** An answered SYN starts the flow at the derived number, past its own reply. */
  lemma SynStep(a: Agent, flows: Flows, s: Seg)
    requires Answered(a, s) && Opens(s)
    ensures var p := PlanSeg(a, flows, s);
            && p.reply.Some? && p.reply.value.seqno == a.isn(s.key)
            && s.key in p.flows && p.flows[s.key] == Add32(a.isn(s.key), SeqLen(p.reply.value))
            && SeqLen(p.reply.value) > META_SIZE
  {
    hide EchoOf, Verify;
  }

  /** While undisturbed, the table holds the SYN's number plus everything sent since. */
  lemma {:induction false} NextIsContiguous(
      a: Agent, flows: Flows, segs: seq<Seg>, k: FlowKey, start: nat, end: nat)
    requires start < end <= |segs|
    requires segs[start].key == k && Answered(a, segs[start]) && Opens(segs[start])
    requires Undisturbed(a, flows, segs, k, start, end)
    ensures var now := After(a, flows, segs[..end]);
            k in now && now[k] == Add32(a.isn(k), Consumed(a, flows, segs, k, start, end))
    decreases end
  {
    hide PlanSeg, Answered, Opens, Add32, Keeps, SeqLen, After;
    var i := end - 1;
    AfterStep(a, flows, segs, i);
    if i == start {
      SynStep(a, After(a, flows, segs[..i]), segs[i]);
    } else {
      NextIsContiguous(a, flows, segs, k, start, i);
      var before := After(a, flows, segs[..i]);
      KeptStep(a, before, segs[i], k);
      var sent := Consumed(a, flows, segs, k, start, i);
      Add32Twice(a.isn(k), sent, Taken(PlanSeg(a, before, segs[i]), segs[i], k));
    }
  }

  /**
   * Sequence contiguity over runs: from an answered SYN on, and whatever other flows do in between, every
   * reply on the flow (the closing FIN/ACK included) starts exactly where the earlier ones ended, modulo 2^32.
   */
  lemma RepliesAreContiguous(
      a: Agent, flows: Flows, segs: seq<Seg>, k: FlowKey, start: nat, i: nat)
    requires start <= i < |segs|
    requires segs[start].key == k && Answered(a, segs[start]) && Opens(segs[start])
    requires Undisturbed(a, flows, segs, k, start, i)
    requires segs[i].key == k && ReplyAt(a, flows, segs, i).Some? && (i > start ==> !Opens(segs[i]))
    ensures ReplyAt(a, flows, segs, i).value.seqno == Add32(a.isn(k), Consumed(a, flows, segs, k, start, i))
  {
    hide Answered, Add32, Gate, EchoOf, Consumed, Undisturbed;
    if i == start {
      SynStep(a, After(a, flows, segs[..i]), segs[i]);
      assert Consumed(a, flows, segs, k, start, i) == 0 by { ConsumedNothing(a, flows, segs, k, start); }
      Add32Nothing(a.isn(k));
    } else {
      NextIsContiguous(a, flows, segs, k, start, i);
    }
  }

  /** How far the flow's next number lags behind all that was sent on it since the SYN. */
  ghost predicate Lags(a: Agent, flows: Flows, segs: seq<Seg>, k: FlowKey, start: nat, end: nat, d: nat)
    requires start < end <= |segs|
  {
    var sent := Consumed(a, flows, segs, k, start, end);
    && sent > META_SIZE
    && d < sent
    && ServerNext(a, After(a, flows, segs[..end]), k) == Add32(a.isn(k), sent - d)
    && (if Undisturbed(a, flows, segs, k, start, end) then d == 0 else d >= META_SIZE)
  }

  lemma UndisturbedStep(a: Agent, flows: Flows, segs: seq<Seg>, k: FlowKey, start: nat, i: nat)
    requires start < i < |segs|
    ensures Undisturbed(a, flows, segs, k, start, i + 1) <==>
            Undisturbed(a, flows, segs, k, start, i) && Keeps(a, After(a, flows, segs[..i]), segs[i], k)
  {
    hide Keeps, After;
  }

  /** An undisturbed flow does not lag; a disturbed one lags by at least a control block, for good. */
  lemma {:induction false} LagOf(a: Agent, flows: Flows, segs: seq<Seg>, k: FlowKey, start: nat, end: nat)
      returns (d: nat)
    requires start < end <= |segs|
    requires segs[start].key == k && Answered(a, segs[start]) && Opens(segs[start])
    ensures Lags(a, flows, segs, k, start, end, d)
    decreases end
  {
    hide PlanSeg, Answered, Opens, Add32, Keeps, SeqLen, After, Undisturbed;
    var i := end - 1;
    AfterStep(a, flows, segs, i);
    var before, s := After(a, flows, segs[..i]), segs[i];
    var p := PlanSeg(a, before, s);
    var taken := Taken(p, s, k);
    if i == start {
      d := 0;
      SynStep(a, before, s);
      NothingBetween(a, flows, segs, k, start);
      ConsumedNothing(a, flows, segs, k, start);
    } else {
      d := LagOf(a, flows, segs, k, start, i);
      var sent := Consumed(a, flows, segs, k, start, i);
      UndisturbedStep(a, flows, segs, k, start, i);
      if Keeps(a, before, s, k) {
        KeptStep(a, before, s, k);
        Add32Twice(a.isn(k), sent - d, taken);
      } else {
        DisturbedStep(a, before, s, k);
        d := if ServerNext(a, p.flows, k) == Add32(a.isn(k), 1) then sent + taken - 1 else sent;
      }
    }
  }

  lemma NothingBetween(a: Agent, flows: Flows, segs: seq<Seg>, k: FlowKey, start: nat)
    requires start < |segs|
    ensures Undisturbed(a, flows, segs, k, start, start + 1)
  {
  }

  lemma Add32Cancels(x: int, n: nat, d: nat)
    requires d <= n < TWO32
    ensures Add32(x, n - d) == Add32(x, n) <==> d == 0
  {
  }

  /** A reply to anything but a SYN carries the flow's next number. */
  lemma ReplyCarriesNext(a: Agent, flows: Flows, s: Seg)
    requires PlanSeg(a, flows, s).reply.Some? && !Opens(s)
    ensures PlanSeg(a, flows, s).reply.value.seqno == ServerNext(a, flows, s.key)
  {
    hide Gate, EchoOf;
  }

  /**
   * Exactly when contiguity holds: within one turn of the sequence space a later reply continues the stream
   * its SYN opened if and only if no reset of the table and no SYN, FIN or RST on the flow came in between.
   */
  lemma ContiguousIffUndisturbed(
      a: Agent, flows: Flows, segs: seq<Seg>, k: FlowKey, start: nat, i: nat)
    requires start < i < |segs|
    requires segs[start].key == k && Answered(a, segs[start]) && Opens(segs[start])
    requires segs[i].key == k && ReplyAt(a, flows, segs, i).Some? && !Opens(segs[i])
    requires Consumed(a, flows, segs, k, start, i) < TWO32
    ensures ReplyAt(a, flows, segs, i).value.seqno == Add32(a.isn(k), Consumed(a, flows, segs, k, start, i)) <==>
            Undisturbed(a, flows, segs, k, start, i)
  {
    hide PlanSeg, Answered, Opens, Add32, After, Consumed, Undisturbed, ServerNext;
    var d := LagOf(a, flows, segs, k, start, i);
    ReplyCarriesNext(a, After(a, flows, segs[..i]), segs[i]);
    Add32Cancels(a.isn(k), Consumed(a, flows, segs, k, start, i), d);
  }

  lemma ConsumedNothing(a: Agent, flows: Flows, segs: seq<Seg>, k: FlowKey, start: nat)
    requires start <= |segs|
    ensures Consumed(a, flows, segs, k, start, start) == 0
  {
  }

  lemma {:induction false} ConsumedSplits(
      a: Agent, flows: Flows, segs: seq<Seg>, k: FlowKey, start: nat, mid: nat, end: nat)
    requires start <= mid <= end <= |segs|
    ensures Consumed(a, flows, segs, k, start, end) ==
            Consumed(a, flows, segs, k, start, mid) + Consumed(a, flows, segs, k, mid, end)
    decreases end
  {
    hide PlanSeg, After, Taken;
    if mid < end {
      ConsumedSplits(a, flows, segs, k, start, mid, end - 1);
    }
  }

  lemma UndisturbedSooner(a: Agent, flows: Flows, segs: seq<Seg>, k: FlowKey, start: nat, i: nat, j: nat)
    requires i <= j <= |segs| && Undisturbed(a, flows, segs, k, start, j)
    ensures Undisturbed(a, flows, segs, k, start, i)
  {
    hide Keeps, After;
  }

  /** Two successive replies on an undisturbed flow are adjacent: no gap and no overlap. */
  lemma SuccessiveRepliesAdjacent(
      a: Agent, flows: Flows, segs: seq<Seg>, k: FlowKey, start: nat, i: nat, j: nat)
    requires start <= i < j < |segs|
    requires segs[start].key == k && Answered(a, segs[start]) && Opens(segs[start])
    requires Undisturbed(a, flows, segs, k, start, j)
    requires segs[i].key == k && ReplyAt(a, flows, segs, i).Some? && (i > start ==> !Opens(segs[i]))
    requires segs[j].key == k && ReplyAt(a, flows, segs, j).Some? && !Opens(segs[j])
    requires forall n :: i < n < j && segs[n].key == k ==> ReplyAt(a, flows, segs, n).None?
    ensures ReplyAt(a, flows, segs, j).value.seqno ==
            Add32(ReplyAt(a, flows, segs, i).value.seqno, SeqLen(ReplyAt(a, flows, segs, i).value))
  {
    hide Answered, Add32, PlanSeg, Keeps, After, SeqLen, Opens, Undisturbed;
    assert Undisturbed(a, flows, segs, k, start, i) by { UndisturbedSooner(a, flows, segs, k, start, i, j); }
    RepliesAreContiguous(a, flows, segs, k, start, i);
    RepliesAreContiguous(a, flows, segs, k, start, j);
    ConsumedSplits(a, flows, segs, k, start, i + 1, j);
    ConsumedSilent(a, flows, segs, k, i + 1, j);
    Add32Twice(a.isn(k), Consumed(a, flows, segs, k, start, i), SeqLen(ReplyAt(a, flows, segs, i).value));
  }

  lemma {:induction false} ConsumedSilent(a: Agent, flows: Flows, segs: seq<Seg>, k: FlowKey, start: nat, end: nat)
    requires start <= end <= |segs|
    requires forall n :: start <= n < end && segs[n].key == k ==> ReplyAt(a, flows, segs, n).None?
    ensures Consumed(a, flows, segs, k, start, end) == 0
    decreases end
  {
    hide PlanSeg, After, SeqLen;
    if start < end {
      ConsumedSilent(a, flows, segs, k, start, end - 1);
    }
  }

  // ---- the size of the table ----

  /** Answered data segments since the last answered SYN. */
  function PushesSince(a: Agent, segs: seq<Seg>): nat {
    if segs == [] then 0
    else
      var s, n := segs[|segs| - 1], PushesSince(a, segs[..|segs| - 1]);
      if Answered(a, s) && Opens(s) then 0 else if Answered(a, s) && Pushes(s) then n + 1 else n
  }

  lemma UpdateSize(m: Flows, k: FlowKey, v: u32)
    ensures |m[k := v]| <= |m| + 1
  {
    assert m[k := v].Keys == m.Keys + {k};
    if k !in m {
      assert |m.Keys + {k}| == |m.Keys| + 1;
    } else {
      assert m.Keys + {k} == m.Keys;
    }
  }

  lemma RemoveSize(m: Flows, k: FlowKey)
    ensures |m - {k}| <= |m|
  {
    assert (m - {k}).Keys == m.Keys - {k};
    if k in m {
      assert m.Keys == (m.Keys - {k}) + {k};
    } else {
      assert m.Keys - {k} == m.Keys;
    }
  }

  lemma SizeStep(a: Agent, flows: Flows, s: Seg)
    ensures |PlanSeg(a, flows, s).flows| <=
            if Answered(a, s) && Opens(s) then FLOW_CAP + 1
            else if Answered(a, s) && Pushes(s) then |flows| + 1
            else |flows|
  {
    hide Gate, EchoOf, Add32;
    UpdateSize(flows, s.key, Add32(a.isn(s.key), 1 + |EchoOf(a, s.data)|));
    UpdateSize(map[], s.key, Add32(a.isn(s.key), 1 + |EchoOf(a, s.data)|));
    UpdateSize(flows, s.key, Add32(ServerNext(a, flows, s.key), |EchoOf(a, s.data)|));
    RemoveSize(flows, s.key);
  }

  /**
   * The flow table over any run from empty: at most 4097 entries right after an answered SYN, and one more
   * for each answered data segment since, because only the SYN branch looks at the cap.
   */
  lemma {:induction false} TableBound(a: Agent, segs: seq<Seg>)
    ensures |After(a, map[], segs)| <= 4097 + PushesSince(a, segs)
  {
    hide PlanSeg, Answered, Opens, Pushes;
    if segs != [] {
      TableBound(a, segs[..|segs| - 1]);
      SizeStep(a, After(a, map[], segs[..|segs| - 1]), segs[|segs| - 1]);
    }
  }

  // ---- runs that fill the table ----

  /** One segment per key, all with the same flags and payload. */
  function Batch(ks: seq<FlowKey>, flags: byte, data: Bytes): (segs: seq<Seg>)
    ensures |segs| == |ks|
  {
    seq(|ks|, i requires 0 <= i < |ks| => Seg(ks[i], 0, flags, data))
  }

  ghost predicate Distinct(ks: seq<FlowKey>) {
    forall i, j :: 0 <= i < j < |ks| ==> ks[i] != ks[j]
  }

  function KeySet(ks: seq<FlowKey>): set<FlowKey> {
    set k | k in ks
  }

  lemma BatchStep(ks: seq<FlowKey>, flags: byte, data: Bytes, n: nat)
    requires n < |ks|
    ensures Batch(ks[..n + 1], flags, data) == Batch(ks[..n], flags, data) + [Seg(ks[n], 0, flags, data)]
    ensures KeySet(ks[..n + 1]) == KeySet(ks[..n]) + {ks[n]}
  {
    assert ks[..n + 1] == ks[..n] + [ks[n]];
  }

  lemma NoBatch(flags: byte, data: Bytes)
    ensures Batch([], flags, data) == [] && KeySet([]) == {}
  {
  }

  lemma NewKey(ks: seq<FlowKey>, n: nat)
    requires n < |ks| && Distinct(ks)
    ensures ks[n] !in KeySet(ks[..n])
  {
  }

  lemma ProbeFlags(s: Seg)
    ensures s.flags == SYN ==> !IsRST(s.flags) && Opens(s)
    ensures s.flags == PSH_ACK ==> !IsRST(s.flags) && Pushes(s)
  {
  }

  /** SYN below the cap, or data at any size: a new key adds an entry. */
  lemma EntryAdded(a: Agent, flows: Flows, s: Seg)
    requires Answered(a, s) && (Pushes(s) || (Opens(s) && |flows| <= FLOW_CAP))
    ensures PlanSeg(a, flows, s).flows.Keys == flows.Keys + {s.key}
  {
    hide Gate, EchoOf, Add32, ServerNext, IsRST, IsFIN, IsPSH, IsSYN, IsACK;
  }

  /**
   * The data branch never looks at the cap: from an empty table, data on any number of distinct flows leaves
   * exactly those flows tracked. So do SYNs, up to one more than the cap.
   */
  lemma {:induction false} BatchTracked(a: Agent, ks: seq<FlowKey>, flags: byte, data: Bytes)
    requires Gate(a, data) && Distinct(ks)
    requires flags == PSH_ACK || (flags == SYN && |ks| <= 4097)
    ensures After(a, map[], Batch(ks, flags, data)).Keys == KeySet(ks)
    ensures |After(a, map[], Batch(ks, flags, data))| == |ks|
    decreases |ks|
  {
    hide Gate, PlanSeg, Batch, KeySet;
    if ks != [] {
      var n := |ks| - 1;
      BatchTracked(a, ks[..n], flags, data);
      assert ks[..n + 1] == ks;
      BatchStep(ks, flags, data, n);
      var segs := Batch(ks, flags, data);
      var before := After(a, map[], Batch(ks[..n], flags, data));
      assert segs[..n] == Batch(ks[..n], flags, data);
      NewKey(ks, n);
      ProbeFlags(segs[n]);
      EntryAdded(a, before, segs[n]);
    } else {
      assert Batch(ks, flags, data) == [] && KeySet(ks) == {} by { NoBatch(flags, data); }
    }
  }

  /** The `i`-th of 2^32 flows that differ in their ports. */
  function PortKey(i: u32): FlowKey {
    FlowKey(Zeros(16), Zeros(16), i / 0x1_0000, i % 0x1_0000)
  }

  function PortKeys(n: nat): (ks: seq<FlowKey>)
    requires n <= TWO32
    ensures |ks| == n
  {
    seq(n, i requires 0 <= i < n => PortKey(i))
  }

  lemma PortKeysDistinct(n: nat)
    requires n <= TWO32
    ensures Distinct(PortKeys(n))
  {
    var ks := PortKeys(n);
    forall i, j | 0 <= i < j < n ensures ks[i] != ks[j] {
      assert ks[i] == PortKey(i) && ks[j] == PortKey(j);
      assert i == i / 0x1_0000 * 0x1_0000 + i % 0x1_0000 && j == j / 0x1_0000 * 0x1_0000 + j % 0x1_0000;
    }
  }

  /** Between one client and one address alone the table can grow to any size up to 2^32. */
  lemma TableGrows(a: Agent, n: nat, data: Bytes)
    requires n <= TWO32 && Gate(a, data)
    ensures |After(a, map[], Batch(PortKeys(n), PSH_ACK, data))| == n
  {
    hide Gate, After, Batch, PortKeys;
    PortKeysDistinct(n);
    BatchTracked(a, PortKeys(n), PSH_ACK, data);
  }

  /** SYNs that fill the table past its cap, one more, then data on the first flow. */
  function OverflowRun(data: Bytes): (segs: seq<Seg>)
    ensures |segs| == 4099
  {
    Batch(PortKeys(4098), SYN, data) + [Seg(PortKey(0), 0, PSH_ACK, data)]
  }

  /**
   * Contiguity does fail from the empty table: the 4098th flow's SYN empties it, and the data reply on the first
   * flow starts over inside the sequence space that its SYN/ACK took.
   */
  lemma OverflowOverlaps(a: Agent, data: Bytes)
    requires Gate(a, data) && 1 + |data| < TWO32
    ensures var segs, i, k := OverflowRun(data), 4098, PortKey(0);
            && segs[0].key == k && Answered(a, segs[0]) && Opens(segs[0])
            && ReplyAt(a, map[], segs, i).Some?
            && ReplyAt(a, map[], segs, i).value.seqno == Add32(a.isn(k), 1)
            && Add32(a.isn(k), Consumed(a, map[], segs, k, 0, i)) != Add32(a.isn(k), 1)
            && !Undisturbed(a, map[], segs, k, 0, i)
  {
    hide Gate, After, Consumed, Undisturbed, PlanSeg, Add32;
    var segs, i, k := OverflowRun(data), 4098, PortKey(0);
    OverflowConsumed(a, data);
    OverflowForgets(a, data);
    DataReply(a, After(a, map[], segs[..i]), segs[i]);
    Add32Cancels(a.isn(k), 1 + |data|, |data|);
    GateLength(a, data);
    ContiguousIffUndisturbed(a, map[], segs, k, 0, i);
  }

  lemma DataReply(a: Agent, flows: Flows, s: Seg)
    requires Gate(a, s.data) && s.flags == PSH_ACK && s.key !in flows
    ensures PlanSeg(a, flows, s).reply.Some? && PlanSeg(a, flows, s).reply.value.seqno == Add32(a.isn(s.key), 1)
  {
    hide Gate, EchoOf, Add32;
    ProbeFlags(s);
  }

  /** An answered SYN on a table over the cap leaves its own flow only. */
  lemma ResetForgets(a: Agent, flows: Flows, s: Seg)
    requires Gate(a, s.data) && s.flags == SYN && |flows| > FLOW_CAP
    ensures PlanSeg(a, flows, s).flows.Keys == {s.key}
  {
    hide Gate, EchoOf, Add32;
  }

  lemma OverflowForgets(a: Agent, data: Bytes)
    requires Gate(a, data)
    ensures PortKey(0) !in After(a, map[], OverflowRun(data)[..4098])
  {
    hide Gate, After, PlanSeg;
    var segs, n := OverflowRun(data), 4097;
    var ks := PortKeys(n);
    PortKeysDistinct(n);
    BatchTracked(a, ks, SYN, data);
    assert segs[..n] == Batch(ks, SYN, data);
    AfterStep(a, map[], segs, n);
    ResetForgets(a, After(a, map[], segs[..n]), segs[n]);
    assert segs[n].key == PortKey(n) != PortKey(0);
  }

  lemma OverflowConsumed(a: Agent, data: Bytes)
    requires Gate(a, data)
    ensures Consumed(a, map[], OverflowRun(data), PortKey(0), 0, 4098) == 1 + |data|
  {
    hide Gate, After, PlanSeg, ReplyAt;
    var segs, k := OverflowRun(data), PortKey(0);
    ConsumedSplits(a, map[], segs, k, 0, 1, 4098);
    PortKeysDistinct(4098);
    forall n | 1 <= n < 4098 ensures segs[n].key != k {
      assert segs[n].key == PortKeys(4098)[n] && k == PortKeys(4098)[0];
    }
    ConsumedSilent(a, map[], segs, k, 1, 4098);
    SynTakes(a, After(a, map[], segs[..0]), segs[0]);
  }

  lemma SynTakes(a: Agent, flows: Flows, s: Seg)
    requires Gate(a, s.data) && s.flags == SYN
    ensures Taken(PlanSeg(a, flows, s), s, s.key) == 1 + |s.data|
  {
    hide Gate, EchoOf, Add32;
  }

  // ---- runs of frames ----

  /** The segment a frame brings to the state machine, if any. */
  function SegOfFrame(a: Agent, frame: Bytes): Option<Seg> {
    var t := Target(a.mode, frame);
    if !a.tcpRespond || t.None? then None
    else
      var q := Admitted(a, t.value.etherType, t.value.bytes);
      if q.None? || q.value.proto != PROTO_TCP then None else SegOf(q.value)
  }

  function SegsOf(a: Agent, es: seq<Event>): seq<Seg> {
    if es == [] then []
    else
      var s := SegOfFrame(a, es[|es| - 1].frame);
      SegsOf(a, es[..|es| - 1]) + if s.None? then [] else [s.value]
  }

  lemma FrameStep(a: Agent, flows: Flows, frame: Bytes, aux: u16)
    ensures Handle(a, flows, frame, aux).flows ==
            match SegOfFrame(a, frame)
            case None => flows
            case Some(s) => PlanSeg(a, flows, s).flows
  {
    hide Handle, Target, Admitted, PlanSeg, Gate, EncodeL3;
    HandleIsReplyTo(a, flows, frame, aux);
  }

  /** A run of frames moves the table exactly as the run of its segments does. */
  lemma {:induction false} FramesAreSegments(a: Agent, flows: Flows, es: seq<Event>)
    ensures FlowsAfter(a, flows, es) == After(a, flows, SegsOf(a, es))
  {
    hide Handle, PlanSeg, SegOfFrame;
    if es != [] {
      var e, rest := es[|es| - 1], es[..|es| - 1];
      FramesAreSegments(a, flows, rest);
      FrameStep(a, FlowsAfter(a, flows, rest), e.frame, e.aux);
      var s := SegOfFrame(a, e.frame);
      if s.Some? {
        var segs := SegsOf(a, rest) + [s.value];
        assert segs[..|segs| - 1] == SegsOf(a, rest);
      } else {
        assert SegsOf(a, es) == SegsOf(a, rest);
      }
    }
  }

  /** The table bound for everything the responder's loop can read. */
  lemma LoopTableBound(a: Agent, es: seq<Event>)
    ensures |FlowsAfter(a, map[], es)| <= 4097 + PushesSince(a, SegsOf(a, es))
  {
    FramesAreSegments(a, map[], es);
    TableBound(a, SegsOf(a, es));
  }

  // ---- what cannot touch the table ----

  /** The segments that can act on a table: resets, and answered ones. */
  function Acting(a: Agent, segs: seq<Seg>): seq<Seg> {
    if segs == [] then []
    else
      var s := segs[|segs| - 1];
      Acting(a, segs[..|segs| - 1]) + if IsRST(s.flags) || Answered(a, s) then [s] else []
  }

  lemma {:induction false} ActingSuffices(a: Agent, flows: Flows, segs: seq<Seg>)
    ensures After(a, flows, segs) == After(a, flows, Acting(a, segs))
  {
    hide PlanSeg, Answered;
    if segs != [] {
      var rest, s := segs[..|segs| - 1], segs[|segs| - 1];
      ActingSuffices(a, flows, rest);
      if IsRST(s.flags) || Answered(a, s) {
        assert Acting(a, segs)[..|Acting(a, rest)|] == Acting(a, rest);
      } else {
        InertStep(a, After(a, flows, rest), s);
        assert Acting(a, segs) == Acting(a, rest);
      }
    }
  }

  /** The frame brings a segment that passes the gate, or one that carries RST. */
  predicate Touches(a: Agent, frame: Bytes) {
    var s := SegOfFrame(a, frame);
    s.Some? && (IsRST(s.value.flags) || Gate(a, s.value.data))
  }

  lemma {:induction false} UntouchedNothingActs(a: Agent, es: seq<Event>)
    requires forall i :: 0 <= i < |es| ==> !Touches(a, es[i].frame)
    ensures Acting(a, SegsOf(a, es)) == []
  {
    hide SegOfFrame, Gate;
    if es != [] {
      var rest, s := es[..|es| - 1], SegOfFrame(a, es[|es| - 1].frame);
      UntouchedNothingActs(a, rest);
      if s.Some? {
        assert SegsOf(a, es)[..|SegsOf(a, rest)|] == SegsOf(a, rest);
      } else {
        assert SegsOf(a, es) == SegsOf(a, rest);
      }
    }
  }

  /**
   * Over any run of frames only resets and segments that pass the gate move the table: leaving out all the
   * others gives the same table, and a run without any leaves it as it was.
   */
  lemma GateGuardsTable(a: Agent, flows: Flows, es: seq<Event>)
    ensures FlowsAfter(a, flows, es) == After(a, flows, Acting(a, SegsOf(a, es)))
    ensures (forall i :: 0 <= i < |es| ==> !Touches(a, es[i].frame)) ==> FlowsAfter(a, flows, es) == flows
  {
    hide Touches, FlowsAfter, SegsOf;
    FramesAreSegments(a, flows, es);
    ActingSuffices(a, flows, SegsOf(a, es));
    if forall i :: 0 <= i < |es| ==> !Touches(a, es[i].frame) {
      UntouchedNothingActs(a, es);
    }
  }

  // ---- what is on the wire ----

  /** The frame carries TCP segment `r`, where its receiver looks for it. */
  predicate Bears(f: Bytes, r: L4Reply) {
    var t := ReplyPacket(f);
    && t.Some?
    && var q := ParseIp(t.value.etherType, t.value.bytes);
    && q.Some? && q.value.proto == PROTO_TCP && BearsL4(q.value, r)
  }

  predicate BearsL4(q: Ip, r: L4Reply) {
    && r.Segment? && |q.l4| >= 20
    && U16At(q.l4, 0) == r.sport && U16At(q.l4, 2) == r.dport
    && U32At(q.l4, 4) == r.seqno && U32At(q.l4, 8) == r.ack
    && q.l4[13] == r.flags && PayloadOf(q) == r.payload
  }

  lemma EncodedBears(q: Ip, r: L4Reply)
    requires r.Segment?
    ensures var p := ParseIp(EtherOf(q.v6), EncodeL3(q, r));
            p.Some? && p.value.proto == PROTO_TCP && BearsL4(p.value, r)
  {
    hide EncodeL3, EncodeL4, ParseIp, PayloadOffset;
    ParseReply(q, r);
    EncodedL4(q.v6, q.dst, q.src, r);
  }

  /** The reply to a frame that brings a segment is the segment planned for it. */
  lemma FrameBears(a: Agent, flows: Flows, frame: Bytes, aux: u16, s: Seg)
    requires SegOfFrame(a, frame) == Some(s)
    ensures var sent, r := Handle(a, flows, frame, aux).sent, PlanSeg(a, flows, s).reply;
            && (sent.Some? <==> r.Some?)
            && (sent.Some? ==> Bears(sent.value, r.value))
  {
    hide Handle, Target, ParseIp, PlanSeg, Gate, EncodeL3, BearsL4, ReplyPacket, SegOf, Marked;
    HandleIsReplyTo(a, flows, frame, aux);
    var t := Target(a.mode, frame).value;
    var q := Admitted(a, t.etherType, t.bytes).value;
    if PlanSeg(a, flows, s).reply.Some? {
      EmittedPacket(a, flows, frame, aux);
      FamilyOf(t.etherType, t.bytes);
      EncodedBears(q, PlanSeg(a, flows, s).reply.value);
    }
  }

  lemma {:induction false} SegsPrefix(a: Agent, es: seq<Event>, j: nat)
    requires j <= |es|
    ensures SegsOf(a, es[..j]) <= SegsOf(a, es)
    decreases |es|
  {
    hide SegOfFrame;
    if j == |es| {
      assert es[..j] == es;
    } else {
      SegsPrefix(a, es[..|es| - 1], j);
      assert es[..|es| - 1][..j] == es[..j];
    }
  }

  /** The position of frame `i`'s segment among the segments of the run. */
  function SegIndex(a: Agent, es: seq<Event>, i: nat): nat
    requires i < |es|
  {
    |SegsOf(a, es[..i])|
  }

  /** Over any run, each TCP frame sent carries the reply of the state machine at the matching segment. */
  lemma SentIsReply(a: Agent, flows: Flows, es: seq<Event>, i: nat)
    requires i < |es| && SegOfFrame(a, es[i].frame).Some?
    ensures var segs, n := SegsOf(a, es), SegIndex(a, es, i);
            && n < |segs| && segs[n] == SegOfFrame(a, es[i].frame).value
            && (SentAt(a, flows, es, i).Some? <==> ReplyAt(a, flows, segs, n).Some?)
            && (SentAt(a, flows, es, i).Some? ==>
                Bears(SentAt(a, flows, es, i).value, ReplyAt(a, flows, segs, n).value))
  {
    hide Handle, SegOfFrame, PlanSeg, Bears, FlowsAfter;
    var segs, before := SegsOf(a, es), SegsOf(a, es[..i]);
    SegsPrefix(a, es, i);
    SegsPrefix(a, es, i + 1);
    assert es[..i + 1][..i] == es[..i];
    assert SegsOf(a, es[..i + 1]) == before + [SegOfFrame(a, es[i].frame).value];
    assert segs[..|before|] == before;
    FramesAreSegments(a, flows, es[..i]);
    FrameBears(a, FlowsAfter(a, flows, es[..i]), es[i].frame, es[i].aux, segs[|before|]);
  }

  lemma {:induction false} SegIndexGrows(a: Agent, es: seq<Event>, start: nat, i: nat)
    requires start < i < |es| && SegOfFrame(a, es[start].frame).Some?
    ensures SegIndex(a, es, start) < SegIndex(a, es, i)
  {
    hide SegOfFrame;
    SegsPrefix(a, es[..i], start + 1);
    assert es[..i][..start + 1] == es[..start + 1] && es[..start + 1][..start] == es[..start];
  }

  /** The sequence space taken on flow `k` by the replies to frames `start` up to `i`. */
  function SentBetween(a: Agent, flows: Flows, es: seq<Event>, k: FlowKey, start: nat, i: nat): nat
    requires start < i < |es| && SegOfFrame(a, es[start].frame).Some?
  {
    SegIndexGrows(a, es, start, i);
    SegsPrefix(a, es, i);
    Consumed(a, flows, SegsOf(a, es), k, SegIndex(a, es, start), SegIndex(a, es, i))
  }

  /** The sequence number in a TCP frame as its receiver reads it. */
  function SentSeqno(f: Bytes): u32
    requires exists r :: Bears(f, r)
  {
    var t := ReplyPacket(f).value;
    U32At(ParseIp(t.etherType, t.bytes).value.l4, 4)
  }

  /**
   * Contiguity on the wire: in a run of frames, the number in the frame sent for a later segment of the flow
   * continues what the SYN opened if and only if the flow was undisturbed in between.
   */
  lemma WireContiguous(a: Agent, flows: Flows, es: seq<Event>, k: FlowKey, start: nat, i: nat)
    requires start < i < |es|
    requires SegOfFrame(a, es[start].frame).Some? && SegOfFrame(a, es[i].frame).Some?
    requires var syn := SegOfFrame(a, es[start].frame).value;
             syn.key == k && Answered(a, syn) && Opens(syn)
    requires var s := SegOfFrame(a, es[i].frame).value;
             s.key == k && !Opens(s) && SentAt(a, flows, es, i).Some?
    requires SentBetween(a, flows, es, k, start, i) < TWO32
    ensures var segs, m, n := SegsOf(a, es), SegIndex(a, es, start), SegIndex(a, es, i);
            && m < n < |segs|
            && (exists r :: Bears(SentAt(a, flows, es, i).value, r))
            && (SentSeqno(SentAt(a, flows, es, i).value) == Add32(a.isn(k), SentBetween(a, flows, es, k, start, i)) <==>
                Undisturbed(a, flows, segs, k, m, n))
  {
    hide SegOfFrame, SentAt, ReplyAt, SegsOf, SegIndex, Consumed, Undisturbed, Answered, Add32, After, ParseIp,
      PayloadOf;
    SentIsReply(a, flows, es, start);
    SentIsReply(a, flows, es, i);
    SegIndexGrows(a, es, start, i);
    ContiguousIffUndisturbed(a, flows, SegsOf(a, es), k, SegIndex(a, es, start), SegIndex(a, es, i));
  }
}
