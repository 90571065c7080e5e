# Traceflow, verified

Traceflow sends marked probes through a network (DSCP 62, TTL 255, a `TFLO` control block after the transport
header), observes them in an eBPF classifier on every node, answers them from a userspace responder at the
destination, and assembles the observations into paths. Four hand-written views of one wire format have to
agree: the classifier, the responder, the client's sniffer and the packet builders. This project models those
views over bytes, the responder's TCP state machine, the collector's bounded store and the tap reconciler, and
proves what holds between them.

`dafny verify dfyconfig.toml` checks everything.

## How it is organised

| module | source | role |
|---|---|---|
| `Wire`, `Address` | `internal/tfmeta`, `agent` | octets, byte order, `net.IP`, the two 16-octet key layouts |
| `Tfmeta` | `internal/tfmeta` | control block, HMAC trailer, `sanitize` |
| `InternetChecksum`, `Builders` | `internal/pkt` | checksum and builders, each as bytes and as buffer writes |
| `Dissect` | all parsers | layers 2 and 3 of a frame, shared reference for three layer-2 loops |
| `Layouts`, `Extensions` | all formats | the formats octet by octet, options, stacked tags and extension headers as data |
| `Sightings`, `Kernel` | `bpf/traceflow.c` | what the classifier should report; the parsers that fill one shared observation |
| `Replies`, `Responder` | `agent/responder.go` | what the responder should do; the object that does it |
| `Sniffer`, `Echo`, `Dialogue` | `client` | decoding, `runICMP`, `runUDP`, `runVXLAN`, `runTCP` |
| `Exchange`, `Authenticity`, `Forgeries`, `Recovery` | between them | one request and its reply |
| `Agreement`, `Disagreement`, `Hosts` | classifier against responder | exact conditions, a packet for each, and several taps on one host |
| `Connections` | `agent/responder.go` | TCP over whole runs |
| `Journey`, `Routes`, `RoundTrip`, `Collector`, `Paths`, `Timestamps` | `collector`, `internal/observation` | a probe's way, the store, the order of a path |
| `Taps` | `agent/watch.go`, `agent/main.go` | tap reconciliation and `local_ips` |

Where the source updates state in place, the model is a class or an array method proved against a pure function
of the old state, and the theorems are about that function.

Octets are integers below 256 and bit tests are written as division and remainder. HMAC-SHA256 is an arbitrary
function of core and key with 32 octets of output; the FNV hash behind `serverISN` is an arbitrary function of
the 4-tuple. A printed address is represented by its `To16` form, which the printed form determines and which
determines it. `flowKey` is therefore a record of two `To16` addresses and two ports.

Several theorems assume an outcome, such as "this frame drew a reply". The theorems of `Echo`, `Dialogue` and
`Disagreement` construct packets for which these outcomes occur.

## What was found

- "The kernel drops a probe only when this agent will answer it" (bpf/traceflow.c:528-539) is not always true.
  `Agreement.DroppedIsAnswered` and `Agreement.AnsweredIsDropped` give the exact conditions in both directions, and
  `Disagreement` has packets for them. Dropped and never answered: the client's own bare ACK in every TCP run, an
  unsigned probe where a key is set, a `need_response` octet of 2, an IPv6 extension header, UDP to port 4789 under
  AUTO, and an IPv6 address that shares a kernel key with a local IPv4 address. Answered and not dropped: a
  `deliver` octet of 2, an IPv4-mapped IPv6 destination, a wrong IP version nibble, and a device or packet with a
  VNI of its own.
- "Never on a transit or source hop" (bpf/traceflow.c:156) fails in watch mode: all taps share one `local_ips`, so a
  probe from one VM to another on the same host is dropped at the sender's tap, where nobody answers
  (`Hosts.NeighbourSwallowed`, `Hosts.SenderTapSwallows`).
- `agent/responder.go:157-159` says AUTO picks VXLAN the way the eBPF program does. It does not: the responder
  commits on the outer port, the program falls back (`Disagreement.VxlanPortMatters`). The two read different packets
  exactly on a marked plain datagram to port 4789 that holds no VXLAN header (`Agreement.SamePacketRead`).
- `bpf/traceflow.c:277` says extension headers are not walked; the code walks up to four, and the model follows
  the code.
- README.en.md:386 calls eviction LRU; the code evicts in insertion order (`Collector.FifoNotLru`). The two agree
  exactly when every observation of a retained run is of the youngest one (`Collector.FifoIsLruIff`). With
  `--max-runs 0` runs are kept for ever, and with a negative value every `add` panics (`Collector.Store.Add`).
- Of two timestamps in one zone, text order is time order except in UTC when one trimmed fraction continues another
  within a second (`Timestamps.TextOrderIsTimeOrder`), and a path lists such a pair of one hop the
  wrong way round (`Timestamps.PathFollowsTime`).
- A reply continues the stream its SYN opened if and only if no table reset and no SYN, FIN or RST on the flow came in
  between (`Connections.ContiguousIffUndisturbed`); 4098 SYNs from an empty table bring a reset about
  (`Connections.OverflowOverlaps`). The data branch has no cap at all (`Connections.BatchTracked`).
- Replacing a tap by another with the same address in one scan loses that address
  (`Taps.ReplacedTapLosesAddress`); a map write that fails half way leaks addresses (`Taps.FailedPutLeaks`).
  `Taps.ScanExact` says exactly when a scan leaves `local_ips` right, for every outcome.
- The path of an answered run mixes both legs: replies start again at hop 0 under the same run id
  (`Journey.ReturnLegInterleaves`, `RoundTrip.AnsweredRunOutOfOrder`).
- With equal source and destination ports the client takes its own segments or datagram for the replies, in TCP its
  data and FIN (`Dialogue.OwnAccepted`), in UDP, port 4789 apart, the probe itself, so that it reports a reply even
  if nobody answers (`Echo.OwnUdpMatches`, `Echo.UdpEcho`).
- A UDP datagram can leave with checksum field zero, which RFC 768 reserves (`Builders.UdpStoresZero`).

## Model

| member | source | states |
|---|---|---|
| `InternetChecksum.SumWords` | internal/pkt/pkt.go:47-53 | the accumulating loop computes the 16-bit word sum, odd octet padded, modulo 2^32 |
| `InternetChecksum.FoldCarries` | internal/pkt/pkt.go:54-56 | the folding loop terminates and adds all carries back in |
| `InternetChecksum.ComputeChecksum` | internal/pkt/pkt.go:46-58 | the whole function, for buffers of any length, wrap-around included |
| `InternetChecksum.NoOverflow` | internal/pkt/pkt.go:47-53 | up to 131074 octets the uint32 accumulator cannot overflow |
| `InternetChecksum.ChecksumIsComplement` | internal/pkt/pkt.go:45-58 | the result is the complement of RFC 1071's pairwise one's-complement sum |
| `InternetChecksum.ChecksumZero` | internal/pkt/pkt.go:46-58 | it is zero exactly for a positive word sum divisible by 0xFFFF |
| `InternetChecksum.FilledVerifies` | internal/pkt/pkt.go:85 | writing it into a zeroed even-offset field makes the re-check zero |
| `Builders.BuildIPv4` | internal/pkt/pkt.go:73-88 | the buffer writes produce the IPv4 packet of `Builders.IPv4` |
| `Builders.IPv4` | internal/pkt/pkt.go:73-88 | where each argument can be read back: ToS, TTL, protocol, addresses, payload |
| `Builders.BuildIPv6` | internal/pkt/pkt.go:162-173 | the buffer writes produce the IPv6 packet of `Builders.IPv6` |
| `Builders.IPv6` | internal/pkt/pkt.go:162-173 | where traffic class, next header, hop limit, addresses and payload are read back |
| `Builders.ComputeL4Checksum` | internal/pkt/pkt.go:61-69 | checksum over pseudo-header and segment; with `v6` it is `l4Checksum6` (lines 151-159) |
| `Layouts.PseudoOctets` | internal/pkt/pkt.go:61-69 | what the checksum covers beside the segment: addresses, length, zero octets and protocol at their offsets, for both families (lines 151-159) |
| `Builders.BuildIcmp` | internal/pkt/pkt.go:91-100 | ICMP, and with `v6` ICMPv6 (lines 176-185), written into a buffer |
| `Builders.BuildUdp` | internal/pkt/pkt.go:103-111 | UDP, and with `v6` UDP6 (lines 188-196), written into a buffer |
| `Builders.BuildTcp` | internal/pkt/pkt.go:114-126 | TCP, and with `v6` TCP6 (lines 199-211), written into a buffer |
| `Builders.Tcp` | internal/pkt/pkt.go:114-126 | ports, sequence and acknowledgement numbers, flags and payload are read back |
| `Builders.BuildEthernet` | internal/pkt/pkt.go:129-136 | an untagged frame written into a buffer |
| `Builders.BuildEthernetVLAN` | internal/pkt/pkt.go:139-148 | a tagged frame, VID modulo 2^12, written into a buffer |
| `Builders.BuildVxlan` | internal/pkt/pkt.go:214-220 | the VXLAN header written into a buffer, the uint32 shift dropping the top octet |
| `Builders.VxlanEncap` | internal/pkt/pkt.go:214-220 | the I flag is set and the VNI reads back modulo 2^24 |
| `Layouts.IPv4Octets` | internal/pkt/pkt.go:73-88 | every octet of the header but the checksum, total length included |
| `Layouts.IPv6Octets` | internal/pkt/pkt.go:162-173 | every octet of the header, payload length included |
| `Layouts.IcmpOctets` | internal/pkt/pkt.go:91-100 | type, code, identifier and sequence number octet by octet |
| `Layouts.UdpOctets` | internal/pkt/pkt.go:103-111 | ports and length octet by octet |
| `Layouts.TcpOctets` | internal/pkt/pkt.go:114-126 | every octet of the header but the checksum |
| `Layouts.VxlanOctets` | internal/pkt/pkt.go:214-220 | every octet of the header |
| `Layouts.BlockOctets` | internal/tfmeta/tfmeta.go:68-80 | every octet of the control block, the timestamp little-endian |
| `Layouts.ProbeHeader` | client/main.go:198-208 | a probe carries DSCP 62, TTL 255 and the numbers of its family |
| `Layouts.IcmpProbeOctets` | client/main.go:149 | protocol, type, identifier 0x1234 and sequence number 1 of an ICMP probe |
| `Layouts.UdpProbeOctets` | client/main.go:170 | protocol and ports of a UDP probe |
| `Layouts.VxlanProbeOctets` | client/main.go:267-290 | the unmarked outer datagram to port 4789 and the inner MACs of a VXLAN probe |
| `Layouts.IPv4OptionsSkipped` | agent/responder.go:515-524 | all parsers find layer 4 behind 0 to 10 words of IPv4 options, or find it truncated |
| `Layouts.TcpOptionsSkipped` | bpf/traceflow.c:211-222 | and the control block behind 0 to 10 words of TCP options, read octet by octet |
| `Layouts.StackedTags` | bpf/traceflow.c:338-364 | of any stack of 802.1Q and 802.1ad tags two are stepped over, the outermost non-zero VID kept, a third left |
| `Builders.IPv4Verifies` | internal/pkt/pkt.go:85 | every IPv4 header re-checks to zero |
| `Builders.IcmpVerifies` | internal/pkt/pkt.go:98 | every ICMP and ICMPv6 message re-checks to zero |
| `Builders.UdpVerifies` | internal/pkt/pkt.go:109 | every UDP and UDP6 datagram re-checks to zero with its pseudo-header |
| `Builders.TcpVerifies` | internal/pkt/pkt.go:124 | every TCP and TCP6 segment re-checks to zero with its pseudo-header |
| `Builders.UdpStoresZero` | internal/pkt/pkt.go:109 | exactly when a datagram's checksum field is left zero |
| `Builders.UdpStoresZeroWitness` | internal/pkt/pkt.go:109 | a concrete datagram for which it is |
| `Tfmeta.Marshal` | internal/tfmeta/tfmeta.go:68-80 | the buffer writes produce the wire form |
| `Tfmeta.EncodeThenUnmarshal` | internal/tfmeta/tfmeta.go:113-126 | decoding undoes encoding, whatever follows the block |
| `Tfmeta.UnmarshalThenEncode` | internal/tfmeta/tfmeta.go:68-126 | encoding undoes decoding exactly when both flag octets are 0 or 1 |
| `Tfmeta.SignedIsAuthentic` | internal/tfmeta/tfmeta.go:92-110 | a signed block verifies under its key and decodes to itself |
| `Tfmeta.MagicOctets` | internal/tfmeta/tfmeta.go:118-120 | only "TFLO" passes the level-2 filter, and its first octet lacks the VXLAN I bit |
| `Tfmeta.Sanitize` | agent/responder.go:457-468 | the copied buffer with flags cleared and signed again |
| `Tfmeta.SanitizedIsAuthentic` | agent/responder.go:453-468 | same id, timestamp and trailer, both flags clear, and still verifying |
| `Address.LocalSetsDiffer` | agent/main.go:319-327 | exactly how the kernel's and the responder's local sets differ when built from one list |
| `Dissect.StripFrameL2` | agent/responder.go:502-507 | stripping a built frame gives back payload, MACs, EtherType and VID modulo 2^12 |
| `Dissect.StripTagged` | internal/pkt/pkt.go:139-148 | the same for a tag written with any VID, zero included |
| `Dissect.ParseIpPacket` | agent/responder.go:515-539 | parsing a built IPv4 or IPv6 packet recovers every field |
| `Sightings.WalkIsChain` | bpf/traceflow.c:306-329 | the bounded walk is the RFC 8200 chain when at most n headers long and stops on an extension header when longer; 8 octets per header |
| `Extensions.WalkUndoesWriting` | bpf/traceflow.c:303-329 | the walk undoes the writing of up to four headers given as data, with their length octets, unless one is a later fragment |
| `Extensions.ExtendedPacketMarked` | bpf/traceflow.c:280-331 | a packet with any well-formed headers is reported, by its transport, exactly when there are at most four, no later fragment, and the transport is marked |
| `Sightings.FragmentRejected` | bpf/traceflow.c:318-325 | a non-first fragment anywhere along the chain leaves no transport header |
| `Sightings.MarkIPv6FollowsChain` | bpf/traceflow.c:280-331 | an IPv6 packet is reported exactly when its chain has at most four headers and ends in a marked transport |
| `Sightings.TunnelledNeverDropped` | bpf/traceflow.c:535-541 | frames read as encapsulated, or on a device or tunnel with a VNI, are never dropped |
| `Kernel.ParseL4AndMeta` | bpf/traceflow.c:192-242 | fills ports, flags, id and timestamp on a hit and leaves `mflags` alone otherwise; all reads in bounds |
| `Kernel.ParseIPv4Header` | bpf/traceflow.c:249-273 | the IPv4 fields of the shared record, independent of what it held, and what a miss leaves in it |
| `Kernel.WalkExtensions` | bpf/traceflow.c:303-329 | the loop over extension headers, in bounds, computes the bounded walk |
| `Kernel.ParseIPv6Header` | bpf/traceflow.c:280-331 | the IPv6 fields of the shared record, independent of what it held, and what a miss leaves in it |
| `Kernel.ParseL2` | bpf/traceflow.c:338-364 | the twice-unrolled tag loop computes the same EtherType, VID and offset as the Go loops |
| `Kernel.ParseVxlan` | bpf/traceflow.c:388-439 | the encapsulated reading, and all that an attempt leaves in the record: the tags, header and transport parts are each written or as they were |
| `Kernel.ParseRegular` | bpf/traceflow.c:447-462 | the plain reading, whatever an earlier attempt left in the record |
| `Kernel.Classifier.Select` | bpf/traceflow.c:495-498 | AUTO is residue-free: record and flags equal a fresh VXLAN parse, or else a fresh regular one |
| `Agreement.AutoIsExclusive` | bpf/traceflow.c:495-498 | AUTO decides on the VXLAN header alone: after an attempt that wrote to the record the fallback never matches |
| `Agreement.SamePacketRead` | agent/responder.go:157-182 | classifier and responder read the same packet of a frame in every mode, except exactly, under AUTO, a marked plain datagram to port 4789 without a VXLAN header |
| `Kernel.Classifier.Submit` | bpf/traceflow.c:540-556 | for a record that holds a sighting the verdict is the reference decision, the stamped copy is the sighting's record, and exactly one counter moves |
| `Kernel.Classifier.HandleTc` | bpf/traceflow.c:464-557 | one packet's record, counters and verdict are those of the reference report |
| `Kernel.Classifier.HandleXdp` | bpf/traceflow.c:581-631 | the XDP program against the same reference, without stripped tag and tunnel key |
| `Kernel.BothHooks` | bpf/traceflow.c:464-631 | TC ingress and XDP give the same record, counters and drop decision |
| `Recovery.PlainProbeRecord` | bpf/traceflow.c:447-556 | the record of any plain probe on any device: addresses, ports, flags, VID of the tag in the frame or else of the stripped tag, VNI source, id, timestamp and hop, and when it is intercepted |
| `Recovery.TunnelProbeRecord` | bpf/traceflow.c:388-439 | the same through VXLAN: VNI modulo 2^24 or, when that is zero, the device's or the packet's; never intercepted |
| `Recovery.ReplyIsObservable` | agent/responder.go:403-405 | every reply is marked on the return path: hop 0, same id and timestamp, addresses turned round, no flags |
| `Responder.ParseL2` | agent/responder.go:480-500 | the early-stopping tag loop computes the shared layer-2 reading |
| `Responder.Responder.AnswerSegment` | agent/responder.go:397-432 | the TCP switch: new flow table and reply packet |
| `Responder.Responder.BuildTCPReply` | agent/responder.go:355-433 | RST, gate and switch together |
| `Responder.Responder.BuildReplyL4` | agent/responder.go:302-344 | ICMP, UDP and TCP dispatch |
| `Responder.Responder.BuildReply` | agent/responder.go:272-300 | level-1 filter and local-destination gate |
| `Responder.Responder.RunRegular` | agent/responder.go:206-217 | at most one frame sent, in the inline or else the offloaded VLAN |
| `Responder.Responder.RunVxlan` | agent/responder.go:229-267 | decapsulation and re-encapsulation |
| `Responder.Responder.Run` | agent/responder.go:160-182 | mode dispatch, AUTO deciding on the outer port |
| `Exchange.ReplyShape` | agent/responder.go:302-344 | every reply echoes a payload that passed the gate, over the same transport, ports swapped, ICMP id and sequence kept |
| `Exchange.EmittedPlain` | agent/responder.go:211-216 | a plain reply frame carries the reply packet, MACs turned round, VLAN kept |
| `Exchange.EmittedTunnel` | agent/responder.go:253-266 | a tunnelled reply carries the reply packet under the same VNI in an unmarked outer packet |
| `Exchange.TunnelTurnedRound` | agent/responder.go:253-266 | outer and inner MACs and outer addresses are swapped, both tags kept |
| `Exchange.TunnelOuterHeader` | agent/responder.go:253-266 | its outer header has both ports 4789 and TTL 255 |
| `Exchange.NoReplyTriggersAnother` | agent/responder.go:453-468 | no frame a responder emits draws a frame from any responder or changes its flows, and no classifier drops it |
| `Exchange.NotVxlanBody` | agent/responder.go:239-241 | a reply datagram to port 4789 is no VXLAN packet because 'T' lacks the I bit |
| `Authenticity.RunIsAuthentic` | agent/responder.go:70-79 | over any run every reply answers a verified payload with a verified echo of id, timestamp and trailer, never longer at layer 3 |
| `Forgeries.GateOctets` | agent/responder.go:383-386 | exactly which payloads a responder acts on: "TFLO", need_response 1, deliver not 1, and under a key the HMAC of octets 0-29 in octets 30-61 |
| `Forgeries.ForgedFrameIgnored` | agent/responder.go:70-79 | a frame whose payload lacks that HMAC draws nothing, in any mode and state, and unless it is a TCP reset changes nothing |
| `Forgeries.WrongKeyIcmp` | internal/tfmeta/tfmeta.go:92-110 | an ICMP probe signed with a key of another HMAC, or unsigned, draws nothing |
| `Forgeries.WrongKeyUdp` | internal/tfmeta/tfmeta.go:92-110 | the same for UDP |
| `Forgeries.WrongKeyTcp` | internal/tfmeta/tfmeta.go:92-110 | the same for every TCP segment |
| `Agreement.PlanIsMark` | agent/responder.go:302-386 | at layer 4 the responder answers exactly what the kernel marks with need 1 and deliver not 1, verified, and for TCP an answered flag |
| `Agreement.DroppedIsAnswered` | bpf/traceflow.c:528-543 | a dropped packet is answered exactly under `Answerable`, whatever the two local sets are |
| `Agreement.AnsweredIsDropped` | bpf/traceflow.c:528-543 | a packet answered on the plain path is dropped exactly under `Droppable`, also when the classifier knows other taps' addresses |
| `Agreement.TunnelAnsweredNotDropped` | bpf/traceflow.c:535-541 | a packet answered inside its encapsulation is never dropped, in any mode |
| `Agreement.DropIffAnswer` | bpf/traceflow.c:528-543 | drop and answer agree on every aligned packet of the plain path |
| `Disagreement.FlagOctetMatters` | bpf/traceflow.c:239-240 | need_response 2: dropped and not answered |
| `Disagreement.DeliverOctetMatters` | internal/tfmeta/tfmeta.go:122-123 | deliver 2: answered and not dropped |
| `Disagreement.ExtensionHeaderMatters` | agent/responder.go:532-539 | a Hop-by-Hop header: dropped and not answered |
| `Disagreement.VxlanPortMatters` | agent/responder.go:166-171 | UDP to 4789 under AUTO: dropped and not answered |
| `Disagreement.KeyCollisionMatters` | agent/main.go:319-327 | an IPv6 destination with a local IPv4 key: dropped and not answered |
| `Disagreement.MappedDestinationMatters` | agent/responder.go:81-89 | an IPv4-mapped IPv6 destination: answered and not dropped |
| `Disagreement.BareAckMatters` | client/main.go:225 | the bare ACK that ends every handshake: dropped and not answered |
| `Disagreement.UnsignedProbeMatters` | agent/responder.go:70-79 | no HMAC where the responder has a key: dropped and not answered |
| `Disagreement.VersionNibbleMatters` | agent/responder.go:515-524 | a wrong version nibble: answered and not dropped |
| `Disagreement.DeviceVniMatters` | bpf/traceflow.c:507-526 | a device VNI or a tunnel key: answered and not dropped |
| `Hosts.AnsweredOnOwnTap` | agent/watch.go:73-86 | what any tap drops is addressed to the host, and answered there only if to that tap's own addresses |
| `Hosts.NeighbourSwallowed` | agent/watch.go:73-86 | after any run of scans of disjoint taps, a probe to another tap's address that is dropped here is never answered here |
| `Hosts.SenderTapSwallows` | agent/watch.go:73-86 | two taps: dropped at the sender's, whose responder is silent, though the receiver's would answer |
| `Connections.NextIsContiguous` | agent/responder.go:403-429 | while undisturbed the table holds the initial number plus everything sent since, modulo 2^32 |
| `Connections.FlowsKeptApart` | agent/responder.go:436-438 | segments share a flow exactly when they share both addresses and both ports |
| `Connections.SwitchOrder` | agent/responder.go:372-432 | by the bits of the flag octet: RST, then SYN without ACK, then FIN, then PSH; each reply's flags, ports and acknowledgement |
| `Connections.RepliesAreContiguous` | agent/responder.go:355-433 | from an answered SYN on, every reply on the flow starts where the earlier ones ended, whatever other flows do |
| `Connections.SuccessiveRepliesAdjacent` | agent/responder.go:403-429 | successive replies leave no gap and no overlap |
| `Connections.ContiguousIffUndisturbed` | agent/responder.go:355-433 | within one turn of the sequence space a later reply is contiguous if and only if no table reset and no SYN, FIN or RST on the flow intervened |
| `Connections.OverflowOverlaps` | agent/responder.go:400-402 | from the empty table: 4098 SYNs, then data on the first flow is answered inside the sequence space of its SYN/ACK |
| `Connections.TableBound` | agent/responder.go:400-426 | at most 4097 flows after an answered SYN, plus one per answered data segment since |
| `Connections.BatchTracked` | agent/responder.go:421-426 | data on any number of distinct flows leaves exactly those tracked, and so do SYNs up to one past the cap |
| `Connections.TableGrows` | agent/responder.go:421-426 | hence tables of every size up to 2^32 between two addresses alone |
| `Connections.GateGuardsTable` | agent/responder.go:377-386 | over any run of frames only RST and answered segments move the table; a run without gate-passing or RST segments leaves it as it was |
| `Connections.FramesAreSegments` | agent/responder.go:103-122 | a run of frames moves the table exactly as the run of its TCP segments |
| `Connections.LoopTableBound` | agent/responder.go:103-122 | the table bound for everything the loop can read |
| `Connections.SentIsReply` | agent/responder.go:103-122 | each TCP frame sent in a run bears the state machine's reply at the matching segment, field by field |
| `Connections.WireContiguous` | agent/responder.go:355-433 | contiguity of the numbers in the frames sent, if and only if undisturbed |
| `Sniffer.StripL2` | client/sniffer.go:173-191 | the client's tag loop computes the shared layer-2 reading |
| `Sniffer.ReadL4Fields` | client/sniffer.go:132-162 | transport fields and payload, or nothing on truncation |
| `Sniffer.ParseMarked` | client/sniffer.go:78-129 | the sniffer decodes what AUTO mode would consider |
| `Sniffer.RecvMatch` | client/main.go:441-456 | the first arrival of this run that satisfies the predicate, or none |
| `Sniffer.CapturedExactly` | client/sniffer.go:100-128 | exactly which packets are decoded: DSCP 62, a whole transport header, "TFLO" behind it |
| `Sniffer.ForeignRunsIgnored` | client/main.go:441-456 | frames of other runs in between never change what is reported |
| `Sniffer.CaptureReply` | client/sniffer.go:100-128 | a reply packet decodes to the reply's own fields |
| `Sniffer.WaitReply` | client/main.go:432-456 | what the client reports is the first capture of its run that passes the test |
| `Echo.IcmpEcho` | client/main.go:142-156 | over its own probe and whatever is answered, the client reports the ICMP reply exactly when the responder owns the address, reads plain frames and is asked; never its own request |
| `Echo.OwnUdpMatches` | client/main.go:174-178 | the client's own datagram passes the test for the reply exactly when both ports are equal and not 4789 |
| `Echo.UdpEcho` | client/main.go:160-179 | what the client reports in every case: its own datagram, the responder's reply, or nothing |
| `Echo.UdpPlainPath` | agent/responder.go:329-339 | the whole capture of the reply: swapped ports and addresses and the run's cleared block; unreadable exactly for client port 4789 |
| `Echo.ClientFrameL3` | client/main.go:398-407 | the client's frame goes to the given MAC from its own, tagged with the VID modulo 2^12 when positive |
| `Echo.VxlanEcho` | client/main.go:254-296 | ICMP in VXLAN over either underlay is reported exactly when the responder owns the inner address, looks into VXLAN and is asked, and the VNI is below 2^24; never its own request |
| `Echo.RunIcmp` | client/main.go:142-156 | the same against a live responder, whose flows are untouched |
| `Echo.RunUdp` | client/main.go:160-179 | the same against a live responder, whose flows are untouched |
| `Echo.RunVxlan` | client/main.go:254-296 | the same against a live responder, whose flows are untouched |
| `Routes.RoutedReply` | agent/responder.go:272-300 | the responder does the same anywhere along a way of bridged and routed steps |
| `Routes.RoutedCapture` | client/sniffer.go:78-129 | the sniffer captures the same anywhere along such a way |
| `Routes.RoutedIcmpEcho` | client/main.go:142-156 | ICMP echo across any way out and back: answered exactly when it would be next to the client, captured as the same reply |
| `Routes.RoutedUdpEcho` | client/main.go:160-179 | UDP echo across any way out and back, with the exact ports for which it is answered and readable |
| `Dialogue.DialogueInRun` | client/main.go:183-250 | with other flows interleaved: sequence and acknowledgement numbers of all three replies, the bare ACK inert, no entry left |
| `Dialogue.ClientStream` | client/main.go:198-244 | the client's four segments overlap but are pieces of one stream |
| `Dialogue.StreamAcknowledged` | agent/responder.go:403-429 | the server acknowledges its start, the end of the data, and one past its end |
| `Dialogue.CaptureOwn` | client/main.go:198-208 | the client's own segment as its sniffer sees it, addressed to the server port |
| `Dialogue.SegmentOnWire` | client/main.go:198-208 | the client's frame: MACs, VID, addresses, ports, both numbers, flags and payload |
| `Dialogue.Await` | client/main.go:441-456 | the first arrival of the run that passes the test is taken, what follows stays unread |
| `Dialogue.OwnAccepted` | client/main.go:213-247 | the client's own data and FIN pass the tests for the replies exactly when both ports are equal, its SYN and bare ACK never |
| `Dialogue.Handshake` | client/main.go:197-230 | SYN, SYN/ACK, bare ACK against a live responder |
| `Dialogue.ExchangeData` | client/main.go:232-241 | the data segment and its echo, or with equal ports the client's own segment, the echo left unread |
| `Dialogue.ExchangeFin` | client/main.go:243-249 | FIN and FIN/ACK, or with equal ports its own FIN; the flow is forgotten |
| `Dialogue.RunTcp` | client/main.go:183-250 | the whole dialogue for any ports: the four frames sent with their numbers and acknowledgements, three accepted captures with contiguous numbers, its own segments only when both ports are equal, every other flow kept |
| `Collector.Store.Evict` | collector/main.go:44-48 | oldest ids removed until the cap holds; a panic exactly for a negative cap |
| `Collector.Store.Add` | collector/main.go:39-54 | the store refines the fold over the ingest history for every cap |
| `Collector.RunIsKept` | collector/main.go:50-53 | a stored run holds everything since its birth, beyond 4096 observations the first 4096 |
| `Collector.NothingLostBelowCap` | collector/main.go:42-48 | while no more runs have been seen than the cap allows, none is evicted and everything counts |
| `Collector.PathHoldsAll` | collector/main.go:56-67 | a path returns all observations of such a run |
| `Collector.Store.Path` | collector/main.go:56-67 | the run sorted by hop and timestamp text, stably, the store unchanged |
| `Collector.Store.ListIds` | collector/main.go:74-82 | the retained ids in order with their counts |
| `Collector.RetainedDistinct` | collector/main.go:42-48 | retained ids are duplicate-free and number min(cap, births) |
| `Collector.KnownRefines` | collector/main.go:50-53 | an observation of a stored run keeps the refinement, at the per-run cap too |
| `Collector.NewRefines` | collector/main.go:42-53 | a new run with eviction keeps the refinement |
| `Collector.FifoIsLruIff` | collector/main.go:31-48 | insertion order is least-recently-used order all along a history exactly when every observation of a retained run is of the youngest one |
| `Collector.FifoNotLru` | collector/main.go:31-48 | a store of two: a run just touched is evicted, an idle one kept, against LRU |
| `Collector.ZeroCapNeverEvicts` | collector/main.go:44-53 | with cap zero, whatever is ingested later, every stored run stays and only grows |
| `Paths.SortStable` | collector/main.go:60-65 | the in-place sort is sorted and keeps every class of equal keys in order |
| `Paths.StableIsPermutation` | collector/main.go:59-65 | hence a permutation of the run |
| `Paths.StableSortUnique` | collector/main.go:60-65 | there is only one such result, so the algorithm does not matter |
| `Timestamps.TextOrderIsTimeOrder` | internal/observation/observation.go:118 | string order is time order exactly outside the continuing-fraction case in UTC |
| `Timestamps.PathFollowsTime` | collector/main.go:60-65 | at one hop and in one zone a path lists the earlier observation first exactly outside that case |
| `Timestamps.SameWidthAgrees` | internal/observation/observation.go:118 | it is when both fractions print at one width |
| `Timestamps.TrimmedZerosMislead` | collector/main.go:64 | ".1Z" sorts after ".12Z" |
| `Journey.StepKeepsMark` | bpf/traceflow.c:271-295 | a bridged or routed step changes only the hop |
| `Journey.NodeObserves` | bpf/traceflow.c:271-295 | every node on the way, in the VXLAN underlay or not, the destination included, reports the run id and the routed steps so far |
| `Journey.UnderlaySees` | bpf/traceflow.c:388-439 | any VXLAN frame around the packet, over either underlay, is such an observation point where the mode is not REGULAR |
| `Journey.TransitObserves` | bpf/traceflow.c:528-556 | a node that sees the probe encapsulated, or does not own its destination, lets it through and reports the routed steps so far |
| `Journey.NodeShips` | internal/observation/observation.go:102-106 | the observation shipped from a node carries the run's id and that hop |
| `Journey.PathIsTravelOrder` | collector/main.go:56-67 | observations traced to nodes of one way are returned in the order the probe passed those nodes, whenever a routed step lies between |
| `Journey.ReplyRestarts` | agent/responder.go:403-405 | a reply is a fresh probe of the same run |
| `Journey.ReturnLegInterleaves` | collector/main.go:60-65 | outbound and return observations are ordered by the distance from the start of their own leg, at equal distance by timestamp text |
| `RoundTrip.AnsweredRunOutOfOrder` | collector/main.go:60-65 | produces a reply and two shipped observations of one run of which the reply's sorts first |
| `Taps.TapManager.AddLocalIPs` | agent/main.go:332-340 | keys written up to the first failure |
| `Taps.TapManager.DelLocalIPs` | agent/main.go:343-348 | keys removed |
| `Taps.TapManager.AttachLocked` | agent/watch.go:63-92 | one tap attached, or not, with the addresses remembered only if all were written |
| `Taps.TapManager.DetachLocked` | agent/watch.go:94-110 | one tap and its remembered addresses removed |
| `Taps.TapManager.Reconcile` | agent/watch.go:41-61 | one scan, in whatever order the map is walked |
| `Taps.TapManager.CloseAll` | agent/watch.go:112-118 | nothing attached, all remembered addresses removed |
| `Taps.ScanEffect` | agent/watch.go:41-61 | for every outcome of attaching and writing: the names attached, the keys they own and the keys in `local_ips`, from the state before and the listings |
| `Taps.ScanExact` | agent/watch.go:41-92 | for every outcome, `local_ips` is right exactly when no released key is static or still wanted and every key left by a failed write is accounted for |
| `Taps.RunFollows` | agent/watch.go:121-142 | over any run of scans of disjoint taps, whatever fails, no wanted key is ever missing and any surplus was left by failed writes |
| `Taps.NothingLeaked` | agent/watch.go:82-86 | without half-failed writes there is no surplus |
| `Taps.ReplacedTapLosesAddress` | agent/watch.go:46-59 | two scans from the empty manager after which an attached tap's address is missing |
| `Taps.FailedPutLeaks` | agent/watch.go:82-86 | two scans from the empty manager after which nothing is attached and an address remains |

## Left out

- Sockets, timeouts, `Recvmsg` and aux-data decoding: frames and the stripped VLAN are inputs, and a deadline is the list of frames that arrive before it.
- eBPF loading, TCX, clsact and XDP attachment, netlink: their results are inputs.
- The order of AF_PACKET taps and TC or XDP drops: kernel behaviour.
- HMAC-SHA256 and FNV internals: arbitrary functions; no cryptographic strength is claimed.
- Timestamps of different zones: order is stated for two stamps in one zone.
- Arrival order at the client's sniffer: its own frame is taken to come before the reply to it.
- Rendering of addresses and ids as text: represented by what the text determines.
- A `--src` that does not parse (a nil address) and hardware addresses longer than six octets.
- `agent/otlp.go`, `agent/metrics.go`, `agent/emit.go`: exporters and counters, `authFailures` and `repliesSent` included.
- `internal/ovs/ovs.go`: parsing of `ovs-vsctl` and `ovn-nbctl` output; the ports it finds are inputs of `Taps`.
- `agent/vxlanwatch.go`: netlink events that fill `iface_vni`; the classifier is proved for every content of that map.
- `Hosts.AnsweredOnOwnTap`: speaks of taps whose address writes succeeded; `Hosts.NeighbourSwallowed` covers the others.
- `internal/observation/observation.go` apart from the hop and the timestamp text: fixed-layout decoding and string tables.
- Calendar validity of timestamp fields: fields are numbers that fit their printed width.
- The block merges of `sort.SliceStable`: the model sorts by insertion, and the stable result is proved unique.
- Replies to double-tagged frames keep only one VID, as in the source; tag preservation is stated for the VID kept.
- Mutexes: each operation is one step.
- HTTP handlers, flag parsing, scripts, containers and integration tests.
