# A verified model of the FNCache packet cache and its control plane

FNCache speeds up pod-to-pod traffic on a Flannel VXLAN overlay. Four TC programs learn the
outer header of a connection from packets that carry two reserved TOS bits, and from then on
paste and strip that header themselves. An agent attaches the programs, fills two of their
maps, and switches the fast path on through a control map. This project models both halves in
Dafny 4.11 and proves what they promise over whole runs.

`dafny verify dfyconfig.toml` checks everything.

## Layout

The packet programs (`bpf/`):

- `Bits`, `Bytes`, `Headers`, `Checksum`: bytes and fields, the IPv4 and VXLAN parsers (section 3.1 of
  RFC 791, section 5 of RFC 7348), one's-complement sums and the incremental update of section
  3 of RFC 1624.
- `Caches`, `Programs`: the shared maps, the control gate, and what each of the four programs
  computes, as functions.
- `Datapath`: the programs as imperative code over a packet buffer and shared maps, each proved
  equal to its function. Every helper call takes its outcome as a parameter.
- `Verdicts`: the same programs as flat tables over the packet's bytes and the map entries
  those name. `Encapsulation`: what one packet goes through. `Runs`: any interleaving of packets,
  evictions and control-plane writes. `Learners`: any number of learners on one flow entry,
  one helper call at a time.

The control plane (`internal/`):

- `Kernel`: the host as the agent finds it (pins, map entries, filter lists, the marker rule,
  the control value, the committed record), with a history of every change.
- `Tc`, `Order`, `Links`, `Observation`: ownership of filters by fixed identity, the links a
  scan visits, the scans, and the verification that gates commit and publish.
- `ControlWriter`, `PinManager` (in `Pins.dfy`), `MapEnsure`, `Ensurers`: control value, pinning
  with rollback, map entries with their byte encoding, and the filter passes.
- `Passes`, `Backend`: the ensure pass and the other stages. `Availability`: when a pass that
  went well will also be verified. `Reconciler`: the seven-stage pipeline on one host.
  `Histories`: sequences of runs, with traffic in between. `Serial`: concurrent callers at the
  one-slot gate.
- `Gates`: which attached programs read the control map that the agent writes. `Bridge`: the
  control map, endpoint map and device map, where the two halves meet.

A failing system call, a cancelled context, a namespace that cannot be entered and the place
the kernel gives a new filter are parameters or nondeterministic choices (`Helpers`,
`TcFaults`, `ControlFaults`, `LoadFaults`, `MapFaults`, `mayFail`), so each contract covers
every combination of them. `mayFail` false means that nothing fails; the contracts then also
say when an operation has to succeed.

## What the proofs found

- A run that fails does not always leave the fast path off. If the control map cannot be
  updated in the disable stage, the agent ends in its disabled state with the fast path still
  on. `Histories.OnAfterARun` gives the exact condition for every run, and
  `Histories.DisableFailureLeavesItOn` a failing input.
- A run in which nothing fails can still fail verification every time: the ensure pass reuses
  a filter by its program's ID, verification asks for the name
  (`Histories.MisnamedFilterFailsTheRun`). `Histories.RunSucceedsExactly` gives the exact
  condition for every host. An unidentifiable filter, or a wanted link that no scan visits, has
  the same effect.
- A completed disable stops the fast path of an attached program if and only if the program was
  loaded with the pinned control map or its own is shut already (`Gates.DisableShutsExactly`).
  Every filter the agent attached qualifies, on a host that had none of its programs pinned at
  first (`Gates.DisableShutsTheAgentsFilters`); once the pins are lost none does, and the
  disable stage succeeds all the same (`Gates.LostPinsStayOn`).
- A second run on unchanged inputs leaves everything as it is, but it reports no change if and
  only if no two local endpoints claim one address with different entries
  (`Histories.SecondRunIsANoOp`). With a clash every run writes both entries in turn;
  `Bridge.SharedAddressClashes` gives two such endpoints.
- A load that fails takes its pins back, when unpinning works, if and only if it does not
  strand them (`PinManager.TakenBackUnlessStranded`): nothing is unpinned when only closing the
  handle fails, nor the maps that a failing kernel load has already pinned.
  `PinManager.FailuresThatStrand` gives a load of each kind. The production loader never fails
  to close (`internal/datapath/kernel.go:58-61`). Leaving the namespace can fail after a filter
  was added (`Tc.TCManager.EnsureFilter`).
- Two learners of the two sides of a flow can both finish, without an eviction, and leave a bit
  unset: when an insertion fails and the lookup after it finds nothing
  (`Learners.FailedInsertionLosesABit`). Without eviction a bit is set if and only if a learner
  of its side has written (`Learners.BitsAreExact`), and a learner ends without having written
  if and only if its lookup missed (`Learners.UntaughtMeansMissed`).
- The 16-bit lengths of a redirected packet are right exactly up to the size at which they
  truncate (`Encapsulation.LengthFieldExact`); the checksum is right at every size. Above that
  size a receiver accepts the frame if and only if the truncated lengths still nest around the
  packet (`Encapsulation.EncapsulatedParses`); `Encapsulation.LargeFrameIsRefused` gives a
  frame of 65500 bytes that it does not accept.
- When the slow path changes, the fast path follows the packets that taught it, until eviction
  (`Runs.FastPathFollowsItsTeachers`).
- A local pod whose entry is in place counts as ready if and only if its host link's MAC does
  not start with a zero byte (`Bridge.ExactEntriesSeen`), because the programs use that byte as
  their ready test (`bpf/tc_prog_kern.c:165`). `Bridge.ZeroMacIsNotReady` gives an endpoint that
  is written and never ready.

## Model

| member | source | states |
|---|---|---|
| Bytes.MarksOnly | bpf/include/common_kern.h:222-234 | setting the miss mark or clearing both marks changes nothing in a TOS byte outside bits 0x0c |
| Bytes.MarkMissIsOr | bpf/include/common_kern.h:226-228 | the arithmetic form of setting the mark is the bitwise or of the source, for every byte |
| Bytes.ClearMarksIsAnd | bpf/include/common_kern.h:229-231 | clearing is the bitwise and with the complement of the mask |
| Bytes.BothMarksIsMask | bpf/tc_prog_kern.c:88-88 | the learning test is the masked comparison of the source |
| Headers.NestedLengths | bpf/include/common_kern.h:50-106 | in every frame the tunnel parser accepts, the inner packet starts at offset 64 and inner total length, UDP length, outer total length and frame length nest |
| Headers.FlowsMirror | bpf/include/common_kern.h:147-193 | both 5-tuple fillers give one key for a packet and its reply, for every protocol, and reversing twice is the identity |
| Headers.KeyBytes | bpf/include/common_kern.h:147-193 | two packets with a flow have one key if and only if they agree on protocol and addresses, bytes 9 and 12..20, and for TCP and UDP on the ports, bytes 20..24; the same in both directions |
| Headers.LocalEnd | bpf/include/common_kern.h:147-193 | the local end of the key is the source of a packet that leaves the pod and the destination of one that enters it; protocols other than TCP and UDP have ports 0 |
| Checksum.OcSumFolds | bpf/include/common_kern.h:274-276 | the receiver's end-around-carry test is divisibility of the plain sum by 0xffff, not both zero |
| Checksum.ReplaceIsExact | bpf/include/common_kern.h:271-279 | after an incremental update the header verifies if and only if it verified before |
| Checksum.ReplaceIgnoresByteOrder | bpf/include/common_kern.h:272-274 | updating byte-swapped words gives the byte-swapped result, so host order does not matter |
| Caches.GateIsTheHeartbeatWindow | bpf/include/common_kern.h:18-30 | with wrapping 64-bit subtraction the gate is open if and only if now lies in the heartbeat window over the integers |
| Programs.SourcePort | bpf/tc_prog_kern.c:194-195 | every 32-bit hash gives a source port in 49152..65534 |
| Programs.PortsShareTheHashes | bpf/tc_prog_kern.c:194-195 | the mixing can be undone, and each port stands for one stretch of 2^32 / 16383 mixed values, in order |
| Datapath.Skb.SetNewLengthOuterHdr | bpf/include/common_kern.h:261-281 | either all three fields are patched or the call reports failure; the packet keeps its length |
| Datapath.SharedMaps.LearnFlow | bpf/tc_prog_kern.c:97-104 | insert-if-absent, or one bit set in the entry that is there, never a bit cleared |
| Datapath.SharedMaps.TcInitE | bpf/tc_prog_kern.c:68-116 | maps and packet after the program are those of its specification, whichever helpers fail |
| Datapath.SharedMaps.TcInitIn | bpf/tc_prog_kern.c:288-334 | the same for the incoming learner, including MACs refreshed before the flow is parsed |
| Datapath.SharedMaps.TcMasq | bpf/tc_prog_kern.c:119-208 | the same for encapsulation: verdict, target and bytes |
| Datapath.SharedMaps.TcRestore | bpf/tc_prog_kern.c:211-285 | the same for decapsulation |
| Datapath.SharedMaps.PasteOuterHeader | bpf/tc_prog_kern.c:172-205 | once room was made the packet is complete and redirected, or dropped |
| Datapath.SharedMaps.StripOuterHeader | bpf/tc_prog_kern.c:266-282 | the same on the way in |
| Encapsulation.NoHalfRewrittenPacket | bpf/tc_prog_kern.c:67-334 | for all four programs and all helper outcomes, a packet let through differs at most in two bits of one TOS byte, and one whose length changed is redirected or dropped |
| Verdicts.MasqVerdict | bpf/tc_prog_kern.c:119-208 | a plain frame with a flow that lacks a ready bit, the route or the header leaves with 0x04 set in byte 15, if the store works, and all other bytes kept; one that hits is redirected with the header of its route, dropped if a helper fails after the room was made, or left alone; every other packet passes unchanged |
| Verdicts.RestoreVerdict | bpf/tc_prog_kern.c:211-285 | the same on the way in, for tunnel frames to the device's own MAC and address: the miss bit goes into byte 65, and a redirected frame is the pod's two MACs, bytes 12..14 and bytes 64 on |
| Verdicts.InitEVerdict | bpf/tc_prog_kern.c:68-116 | a marked tunnel frame with a flow adds the egress bit, the header under the outer destination and the route of the inner one, each only if absent, and leaves without the bits 0x0c in byte 65; every other packet passes unchanged and teaches nothing |
| Verdicts.InitInVerdict | bpf/tc_prog_kern.c:288-334 | a marked plain frame for a known pod puts its MACs into the pod's entry and keeps the interface; with a flow it also adds the ingress bit and leaves without the bits 0x0c in byte 15 |
| Encapsulation.LearnedTemplateOk | bpf/tc_prog_kern.c:106-112 | every learned header passes the parsers' field checks and is keyed by its own destination |
| Encapsulation.EncapsulatedBytes | bpf/tc_prog_kern.c:187-199 | only the eight bytes of lengths, checksum and source port differ from the learned header, and the packet follows unchanged |
| Encapsulation.EncapsulatedParses | bpf/include/common_kern.h:50-106 | what encapsulation builds is accepted by the parsers, with the original packet as the inner one, if and only if its truncated lengths nest around the packet; the same bytes are available to it and the lengths are the frame's if and only if they fit in 16 bits |
| Encapsulation.LengthFieldExact | bpf/include/common_kern.h:266-273 | the patched lengths are the frame's own if and only if they fit in 16 bits |
| Encapsulation.LargeFrameIsRefused | bpf/include/common_kern.h:50-106 | a frame of 65500 bytes whose truncated outer length is zero and which no receiver accepts |
| Encapsulation.ChecksumCarriesOver | bpf/include/common_kern.h:271-279 | the outer checksum of a built frame verifies if and only if that of the learned header does, at every length |
| Encapsulation.RestoreUndoesMasq | bpf/tc_prog_kern.c:224-281 | a receiver redirects a built frame if and only if the parsers accept it and its devices and caches match, and delivers its two MACs and then the original bytes from offset 12 on |
| Runs.CachesComeFromPackets | bpf/tc_prog_kern.c:106-112 | in every run from empty caches each cached header and each cached route was read off one marked packet of the run |
| Runs.CachedHeadersOk | bpf/tc_prog_kern.c:106-112 | over every run each cached header passes the field checks under the key it is stored at |
| Runs.FastPathRefinesSlowPath | bpf/tc_prog_kern.c:147-203 | if the packets learned from were sent by the slow path, or redirected by the fast path itself earlier in the run, each redirected packet leaves by the interface of its route with the same bytes behind the header of its route, in any interleaving; it is a slow-path encapsulation if and only if its lengths fit in 16 bits |
| Runs.FastPathFollowsItsTeachers | bpf/tc_prog_kern.c:106-112 | with a slow path that may change at every event, each redirected packet goes behind the header and along the route that one packet from outside each taught, as the slow path stood then; so it follows the present slow path if that has not changed in the two since |
| Runs.OnlyTheSlowPathTeaches | bpf/tc_prog_kern.c:106-112 | a cache that also learns from frames it redirected itself never learns anything but the slow path |
| Runs.RedirectedFramesParse | bpf/tc_prog_kern.c:176-199 | over every run each redirected frame parses as a tunnel around the original packet to the node the route names, if and only if its truncated lengths nest around the packet |
| Runs.RedirectedChecksumsVerify | bpf/include/common_kern.h:271-279 | if every packet learned from had a valid outer checksum, save for frames redirected earlier in the run, so has every redirected one |
| Runs.DeliveryRoundTrip | bpf/tc_prog_kern.c:224-281 | a frame redirected in any run of a sender, of any size, reaches the pod if and only if its lengths are accepted and the receiver matches, with nothing lost or added |
| Runs.DeliveredAsTheSlowPath | bpf/tc_prog_kern.c:305-312 | if control plane and slow path use a pod's own MACs, what the pod gets over any run of either side is the sender's frame from offset 12 on behind those MACs, on the interface last written for the pod |
| Runs.ReadyBitsAreHistory | bpf/tc_prog_kern.c:97-104 | a ready bit is set if and only if that side recorded the flow after its last eviction |
| Runs.ForwardingNeedsBothSides | bpf/tc_prog_kern.c:136-145 | a packet is redirected only if both learners recorded its flow since the flow's last eviction |
| Runs.LearnedEntriesStay | bpf/tc_prog_kern.c:110-112 | without eviction the first header and route learned win over everything later, and no ready bit is taken back |
| Runs.LearnedConnectionIsForwarded | bpf/tc_prog_kern.c:136-206 | after one outgoing packet and one incoming reply, and no eviction, every packet of the flow is redirected that the gate, the pod entry and the helpers allow |
| Runs.PodsComeFromTheControlPlane | bpf/tc_prog_kern.c:305-312 | packets and evictions never add an endpoint entry or change its interface |
| Runs.RestoreTargetIsLastWritten | bpf/tc_prog_kern.c:252-281 | decapsulated packets go only to the interface the control plane last wrote for the inner destination |
| Runs.ExpiredIsShut | bpf/include/common_kern.h:24-28 | once the heartbeat window is over the gate stays shut |
| Runs.ShutGateExcludesPackets | bpf/include/common_kern.h:18-30 | from a disable or an expiry to the next publish no packet is changed and none teaches anything, in any interleaving |
| Learners.LearnersLoseNothing | bpf/include/common_kern.h:131-145 | in every reachable state the entry carries the bit of every learner that wrote to it, and one learner at most is in the critical section |
| Learners.BitsOnlyGrow | bpf/include/common_kern.h:138-144 | ready bits never go back while their entry stays |
| Learners.BothSidesFinished | bpf/tc_prog_kern.c:321-329 | without eviction both bits are set if and only if a learner of each side has written, for any number of learners and whichever insertions fail |
| Learners.BitsAreExact | bpf/tc_prog_kern.c:97-104 | without eviction a bit is set if and only if some learner of its side has written into the entry |
| Learners.UntaughtMeansMissed | bpf/tc_prog_kern.c:98-100 | in any run a learner ends without having written if and only if its lookup found no entry |
| Learners.FinishedWithoutMissing | bpf/tc_prog_kern.c:321-329 | one finished learner of each side is enough for both bits, if neither missed and nothing was evicted |
| Learners.FailedInsertionLosesABit | bpf/tc_prog_kern.c:97-100 | a schedule in which both learners finish without eviction and one bit is missing, because an insertion failed |
| Learners.SomeLearnerCanMove | bpf/include/common_kern.h:138-144 | while a learner is unfinished some learner can take a step |
| Learners.AloneIsAtomic | bpf/tc_prog_kern.c:97-104 | a learner that runs alone does what the packet-level model takes it to do |
| Tc.NewFixedFilter | internal/datapath/tc.go:86-104 | a filter exists for the four programs on a real link with a real program ID only, and it is a valid one |
| Tc.DecideMeans | internal/datapath/tc.go:142-156 | attaching happens if and only if no filter of the list is foreign or has the handle; reusing if and only if the wanted filter comes before any foreign one |
| Tc.DecisionOnIdentities | internal/datapath/tc.go:142-156 | with the four identities written out: a conflict if and only if, before the wanted filter, a filter at its hook and priority 1000 has its handle with another ID or direct-action flag, or is none of the four; reuse if and only if the wanted one comes first |
| Tc.AttachedIsReused | internal/datapath/tc.go:142-167 | idempotence: wherever the kernel puts a new filter, the next call reuses it |
| Tc.OthersDoNotMatter | internal/datapath/tc.go:142-156 | a decision for one program is the same whichever of the other fixed filters were attached before it, anywhere in the list |
| Tc.UniquenessKept | internal/datapath/tc.go:142-157 | one filter per hook and handle at the fixed priority, before and after an attach |
| Tc.RemoveUndoesAttach | internal/datapath/tc.go:169-192 | removing what was attached gives back the original list, in order |
| Tc.RemovedMeans | internal/datapath/tc.go:169-192 | the first filter with the wanted hook, priority and handle goes if it has the wanted program ID and direct-action flag, and nothing else ever goes |
| Tc.EnsuresMeans | internal/datapath/tc.go:122-167 | success, condition by condition: the request is in order, the link can be reached and left, and the wanted filter is there first, or nothing is in its way and the pinned program of that name and ID can be attached |
| Tc.TCManager.EnsureFilter | internal/datapath/tc.go:122-167 | success and the new list in every combination of faults; it fails as a foreign conflict, and then adds nothing, if and only if a filter that is none of the four, or another one under the wanted handle, comes before the wanted one; no filter, pin or map changes except for the one added filter |
| Tc.TCManager.RemoveFilter | internal/datapath/tc.go:169-192 | only the wanted filter goes; a different one under its handle stays and is an error |
| Order.Sort | internal/controlplane/backend.go:138-142 | the sorted list of the keys, without repetition |
| Order.SortedKeysUnique | internal/controlplane/backend.go:138-142 | that list is the same for every order a map is walked in |
| Order.LeIsLexicographic | internal/controlplane/backend.go:142-142 | a UID comes before another if and only if it is a prefix of it or has the smaller character where they first differ |
| Links.MergeEndpointLinks | internal/agent/static_runtime.go:234-261 | the position map and the list never disagree; the result is the base overridden by the endpoint links in UID order |
| Links.MergedLinksDriveTheScan | internal/agent/static_runtime.go:234-261 | a scan of the merged links visits exactly the interfaces, by namespace and index, that an endpoint or the configuration names, each once, as the last endpoint in UID order that names it does, its host link before its peer link, or else as the first configured link |
| Links.VisitedMeans | internal/datapath/tc_scan.go:31-39 | the links visited are the first of every key, each key once |
| Observation.Observer.Scan | internal/controlplane/observer.go:137-159 | succeeds if and only if nothing fails, the pinned maps have their schemas and the links can be reached; then it reports the host |
| Observation.Observer.ScanFilters | internal/datapath/tc_scan.go:25-60 | attachments and conflict count of exactly the visited links, in order |
| Observation.HasAttachment | internal/controlplane/ensure.go:58-71 | found if and only if some attachment matches |
| Observation.AttachmentVerifiedMeans | internal/controlplane/publish.go:131-140 | with the four identities written out: an attachment passes if and only if the scan shows the program on the interface, at its own hook and handle, at priority 1000 and under the ID in force |
| Observation.CollectionVerifiedMeans | internal/controlplane/publish.go:79-97 | the collection passes if and only if each of the four programs and eight maps is there with an ID, its own name or none, and its own sizes |
| Observation.VerifyState | internal/controlplane/publish.go:68-113 | accepts if and only if the state is verified, whatever order the endpoints are walked in; a state that reports an enabled control map is refused |
| Observation.OwnershipState | internal/controlplane/publish.go:142-170 | the record of exactly the scanned programs, maps and attachments and all desired endpoints |
| Observation.CommittedRecordCovers | internal/controlplane/publish.go:142-170 | the programs, maps and attachments in a committed record pass, by themselves, the verification of the state it was committed for, and each desired endpoint is in it with its UID, address, namespace and interfaces |
| ControlWriter.Writer.Disable | internal/datapath/control.go:50-74 | succeeds if and only if the map is accessible with the right ABI; only the enabled word changes |
| ControlWriter.Writer.DisableIfPinned | internal/agent/static_runtime.go:192-200 | success means the pinned control map is off, or none is pinned; a missing map is success |
| ControlWriter.Writer.Initialize | internal/datapath/control.go:76-102 | a fresh or compatible value becomes a disabled one; a foreign ABI is left alone |
| ControlWriter.Writer.Publish | internal/datapath/control.go:104-136 | enabled with the given generation and heartbeat, or unchanged |
| ControlWriter.OffMeansShut | bpf/include/common_kern.h:18-30 | while the pinned control map is off, programs that read it see a shut gate at every time |
| PinManager.Manager.PinMissingMaps | internal/datapath/manager.go:112-121 | of the wanted maps exactly those that were missing are created, empty, and owned |
| PinManager.LoadedCollection.Unpin | internal/datapath/manager.go:140-153 | what the collection owns is taken back, whatever fails, and nothing else |
| PinManager.Manager.PinPrograms | internal/datapath/manager.go:122-130 | in any order, all programs are pinned and owned, or exactly those owned were pinned |
| PinManager.Manager.LoadAndPin | internal/datapath/manager.go:76-132 | all or nothing: it succeeds if and only if nothing stands in the way, with exactly the new pins added, and otherwise, if unpinning works, leaves the pins from before and those of a failing kernel load; a map that existed is never unpinned |
| PinManager.CollectionEnsurer.EnsureCollection | internal/controlplane/collection_ensure.go:63-100 | a ready collection is left alone; one that is not is loaded if and only if it can be, and the host afterwards is determined, whether it succeeded, failed and was taken back, or was stranded |
| PinManager.LoadMeans | internal/controlplane/collection_ensure.go:63-100 | condition by condition when a load succeeds, and what is pinned then: the whole collection beside what was there, with empty maps of the schema and programs that use exactly the pinned maps |
| PinManager.ReadyMeans | internal/controlplane/collection_ensure.go:102-120 | ready means exactly the four programs and eight maps, each with an ID, and the maps with their sizes |
| PinManager.TakenBackUnlessStranded | internal/controlplane/collection_ensure.go:87-99 | when unpinning works, a failed load leaves the pins as they were if and only if it did not strand them: neither did only closing fail, nor did the kernel fail after pinning a map |
| PinManager.FailuresThatStrand | internal/controlplane/collection_ensure.go:96-98 | two loads into a bare host that fail and leave pins behind |
| PinManager.PartlyLoadedIsLinked | internal/datapath/manager.go:93-131 | whatever part of a load is left on the host, its programs use the maps that are pinned, and a map was pinned only where no program of the collection was |
| PinManager.VerifiedIsReady | internal/controlplane/collection_ensure.go:102-120 | what verification accepts the next pass does not load again |
| MapEnsure.EncodeIngressEntry | internal/controlplane/map_ensure.go:83-90 | the buffer filled in place is the layout of the endpoint value |
| MapEnsure.EncodeDeviceEntry | internal/controlplane/map_ensure.go:92-100 | the same for the device value, padding zero |
| MapEnsure.EncodingRoundTrip | bpf/include/oncache_abi.h:31-41 | in either byte order the programs read back the interface and MACs that were encoded; an index below 2^32 comes back as it is |
| MapEnsure.MapWriter.Ensure | internal/datapath/map_writer.go:39-72 | unchanged, updated or failed, each if and only if; an entry of another size is never overwritten |
| MapEnsure.MapEnsurer.EnsureEndpointMaps | internal/controlplane/map_ensure.go:28-70 | nothing is written while the fast path counts as on; it succeeds if and only if the identity, the schemas and the sizes of existing entries fit, then has both entries in place and reports a change if and only if one was missing |
| Ensurers.AttachPreserves | internal/datapath/tc.go:157-164 | one attach, at any place in the list, loses no filter, adds a fixed one, keeps handles unique and keeps every established filter established |
| Ensurers.AttachKeepsPlaceable | internal/datapath/tc.go:142-157 | after an attach every other wanted filter can be attached if and only if it could be before |
| Ensurers.WantedKeepsAttachable | internal/datapath/tc.go:62-67 | the four fixed slots keep the programs out of each other's way on any link |
| Ensurers.PreservedTransitive | internal/controlplane/backend.go:113-157 | these guarantees compose over any number of attaches, and so does that each new filter runs a pinned program under its ID |
| Ensurers.FilterEnsurer.EnsureProgram | internal/controlplane/ensure.go:43-54 | success establishes the filter, failure at any point preserves all others, an established filter is not touched, and if nothing fails it succeeds if and only if no filter is in the way, wherever the kernel puts the new one |
| Ensurers.BaseEnsurer.EnsureBase | internal/controlplane/ensure.go:22-56 | the same for the node's two filters, with one exact condition for success; on success a change is reported if and only if the scan lacks one of the two; a filter is added only where its handle was free |
| Ensurers.EndpointEnsurer.EnsureEndpoint | internal/controlplane/endpoint_ensure.go:24-72 | the same for an endpoint's two, and only for the desired identity, likewise exact, with the same report of a change |
| Passes.ExactMeansNoClash | internal/controlplane/map_ensure.go:59-64 | all entries can be in place at once only if no two endpoints clash over an address |
| Passes.AllPutReads | internal/controlplane/backend.go:143-155 | after a pass an address holds the entry of the last endpoint in UID order that claims it, or what was there |
| Passes.PassIsIdempotent | internal/controlplane/backend.go:143-155 | a second pass over its own result changes no entry, even when endpoints share an address |
| Passes.TurnMakesProgress | internal/controlplane/backend.go:143-155 | an endpoint's turn settles it and unsettles none of the others |
| Passes.TurnKeepsFeasible | internal/controlplane/backend.go:143-155 | an endpoint's turn makes no other endpoint possible or impossible |
| Passes.StableIsReady | internal/controlplane/backend.go:117-145 | nothing stands in the way of a pass over a host that a successful run left |
| Passes.ScanIgnoresEntries | internal/controlplane/observer.go:137-159 | map entries do not influence a scan |
| Backend.FirstPassBackend.EnsureMarker | internal/controlplane/marker_ensure.go:26-44 | a present rule is not touched; success leaves it present and reports a change if and only if it was absent; adding it is recorded with the state of the fast path |
| Backend.FirstPassBackend.EnsureEach | internal/controlplane/backend.go:138-155 | the loop over the endpoints: success settles them all and leaves the entries of a whole pass; a settled host is left alone; without faults it succeeds if and only if every endpoint is feasible at the start |
| Backend.FirstPassBackend.Ensure | internal/controlplane/backend.go:113-157 | nothing that was there is lost or altered, all changes are made with the fast path off, success leaves the host settled with only the expected pins added, a success that reports no change left pins, entries, filters and marker as they were, a stable host stays as it is, and without faults it succeeds if and only if nothing stands in its way |
| Backend.FirstPassBackend.EnsureFromScan | internal/controlplane/backend.go:129-156 | the part after the second scan, likewise exact |
| Backend.FirstPassBackend.Verify | internal/controlplane/backend.go:159-165 | success means the host as it is now is verified |
| Backend.FirstPassBackend.Commit | internal/controlplane/backend.go:167-179 | only the record of a verified host is ever committed, even when the call fails after the rename |
| Backend.FirstPassBackend.Publish | internal/controlplane/backend.go:181-184 | the fast path comes on with the desired generation, or nothing changes |
| Availability.NoConflicts | internal/datapath/tc_scan.go:47-57 | a scan reports no conflict if and only if every filter it sees can be identified |
| Availability.EstablishedIsVerified | internal/controlplane/publish.go:131-140 | a filter the pass established passes verification if and only if its link is scanned and, before the pass, it was there under the program's name or its handle was free; reuse compares IDs only |
| Availability.DoneIsVerified | internal/controlplane/publish.go:68-113 | a pass that went well ends verified if and only if the host it started from had the collection, no unidentifiable filter, and every wanted filter missing or under its own name, on scanned links |
| Reconciler.Coordinator.DisableAndDiscover | internal/reconcile/reconciler.go:60-66 | the disable stage completes if and only if the control map can be disabled, and until then nothing has changed |
| Reconciler.Coordinator.ScanAndEnsure | internal/reconcile/reconciler.go:67-74 | the two stages keep the fast path off, attach filters only once all maps are pinned, and prepare the host; if nothing fails they succeed if and only if nothing stands in the way |
| Reconciler.Coordinator.VerifyAndCommit | internal/reconcile/reconciler.go:75-84 | the record changes only to that of the verified host, and the verify stage counts as completed only if the host is verified |
| Reconciler.Coordinator.PublishLast | internal/reconcile/reconciler.go:85-89 | publishing follows a committed record only, and leaves exactly the published value |
| Reconciler.Coordinator.RunStages | internal/reconcile/reconciler.go:58-95 | a run's actions are a prefix of the pipeline, complete if and only if it succeeded, and the whole outcome of the run for every failure and cancellation; it publishes once if it succeeds and never if it fails; one that succeeds and reports no change left pins, entries, filters and marker as they were; if nothing fails it prepares the host whenever disable and ensure can do their work, and then succeeds if and only if the host it leaves is verified |
| Reconciler.Coordinator.FullReconcile | internal/reconcile/reconciler.go:46-96 | the agent state after a run is Ready if it succeeded and Disabled if it failed; a refused caller changes nothing |
| Histories.OnAfterARun | internal/reconcile/reconciler.go:58-95 | a run ends with the fast path on if and only if it succeeded, or the fast path was on and could not be disabled |
| Histories.DisableFailureLeavesItOn | internal/reconcile/reconciler.go:60-62 | a failing update of the control map leaves a disabled agent with an enabled fast path |
| Histories.EnabledImpliesCommitted | internal/reconcile/reconciler.go:58-95 | over any sequence of runs and traffic, whenever the fast path is on the last successful run switched it on, the host still passes the verification of what that run desired, its record is committed and its generation published; no run since could even disable the fast path |
| Histories.OnlySuccessPublishes | internal/reconcile/reconciler.go:85-95 | over any sequence of runs and traffic the values that were published are exactly those of the successful runs, one each, in order |
| Histories.PublishedCovers | internal/controlplane/backend.go:167-184 | the committed record then covers that state, with the same generation |
| Histories.RunsAreSteady | internal/controlplane/map_ensure.go:35-37 | over any sequence of runs and traffic every change a run made to pins, filters, entries or the marker rule was made with the fast path off, and pins, filters, the rule and the content of maps that are not the agent's are kept |
| Histories.ForeignFiltersSurvive | internal/datapath/tc.go:122-167 | over any sequence of runs and traffic no filter is lost on any interface, each new one has a fixed identity, and handles stay unique |
| Histories.AttachedUseThePinnedMaps | internal/datapath/tc_linux.go:117-135 | over any sequence of runs and traffic, from a host with no program of the collection pinned, every filter attached since runs a pinned program, and that program was loaded with all the maps that are pinned |
| Histories.RunSucceedsExactly | internal/reconcile/reconciler.go:58-95 | a run in which nothing fails succeeds if and only if, before it, the control map can be disabled, the heartbeat is configured, nothing is in the way of the ensure pass, and every wanted filter is missing or under its own name on scanned links |
| Histories.MisnamedFilterFailsTheRun | internal/controlplane/ensure.go:58-71 | on a host with one reused filter under another name nothing is in the way of the ensure pass, and every run in which nothing fails ends disabled |
| Histories.FirstRunSucceeds | internal/reconcile/reconciler.go:58-95 | in particular the first run on a host without pins or filters succeeds, for every complete desired state and wherever the kernel puts the filters |
| Histories.SecondRunIsANoOp | internal/controlplane/backend.go:113-184 | after a successful run a fault-free run on the same inputs succeeds, leaves host, control value and record identical and publishes the same value again; it reports no change, and makes none, if and only if no addresses clash |
| Serial.ReconcilesAreSerialized | internal/reconcile/reconciler.go:46-136 | for any number of callers and cancellations the backend sees a concatenation of prefixes of the pipeline, one caller each |
| Serial.OneCallerAtATime | internal/reconcile/reconciler.go:51-56 | never two callers past the gate |
| Serial.StateReportsTheLastRun | internal/reconcile/reconciler.go:91-148 | while the gate is free the state is Ready if and only if the last gated run succeeded, and Disabled if and only if it failed |
| Serial.EveryCallIsGated | internal/reconcile/reconciler.go:48-56 | in any run of any number of callers each backend call is by a caller that entered the gate in it; a caller refused each time made none |
| Serial.HolderCanMove | internal/reconcile/reconciler.go:51-53 | the holder of the gate always has a next step |
| Serial.EveryOutcomeHappens | internal/reconcile/reconciler.go:46-96 | from any free gate a caller can complete any number of stages and leave, with success after the last one and with failure before |
| Serial.FailureEndsTheRun | internal/reconcile/reconciler.go:98-136 | after a failed backend call the caller makes no other and does not succeed until it has left the gate, whatever the others do |
| Gates.DisableShutsExactly | internal/agent/static_runtime.go:192-200 | a completed disable shuts the gate of an attached program if and only if the program reads the pinned control map or its gate was shut for good |
| Gates.DisableShutsTheAgentsFilters | internal/agent/static_runtime.go:192-200 | over any sequence of runs and traffic, from a host with no program of the collection pinned, the gate of every filter attached since is that of the pinned map, and a completed disable shuts it |
| Gates.LostPinsStayOn | internal/agent/static_runtime.go:192-200 | a host that lost its pins, on which the disable stage completes and an attached filter lets packets through until its heartbeat runs out |
| Bridge.PassIsARun | internal/controlplane/backend.go:143-155 | to the programs an ensure pass is a run of endpoint and device writes in UID order |
| Bridge.RestoreGoesToTheHostLink | bpf/tc_prog_kern.c:252-281 | in any run that interleaves the writes of ensure passes, complete or cut short, with packets and evictions, decapsulated packets go only to the host link, an index below 2^32 unchanged, of the endpoint desired for the inner destination by the last pass that wrote that address |
| Bridge.AnyInterleaving | internal/controlplane/backend.go:143-155 | the runs that theorem is about: the writes of the passes by themselves, with packets, evictions and control writes put in anywhere |
| Bridge.NoPacketDuringAReconcile | internal/reconcile/reconciler.go:58-95 | in any interleaving of a reconcile run with packets and evictions at a program that reads the pinned control map, from the disable stage on no packet is changed or learned from until the run ends, if it fails, and until its one publish, if it succeeds |
| Bridge.PublishOpensTheWindow | internal/datapath/control.go:127-132 | after a successful run the gate is open if and only if now is in the published window and the flags do not force packets to pass |
| Bridge.ExactEntriesSeen | internal/controlplane/map_ensure.go:83-100 | with all entries in place the programs find every pod's host link and MACs and the underlay's address and MAC, under the interfaces' own indices below 2^32, and take the pod for ready if and only if its host link's MAC does not start with a zero byte |
| Bridge.ZeroMacIsNotReady | bpf/tc_prog_kern.c:165-168 | an endpoint whose entry is written and which is not ready |
| Bridge.SharedAddressClashes | internal/controlplane/map_ensure.go:59-64 | two endpoints that clash over an address |

## Left out

- Histories.SecondRunIsANoOp: assumes maps within capacity and no packets, evictions or other writers between the runs; the kernel's choice of a victim in a full map is not modelled.
- Backend.FirstPassBackend.EnsureMarker: the text of the Flannel marker rule and its place in the chain are abstracted to one rule that is there or not.
- Tc.TCManager.EnsureFilter: the clsact qdisc that the call adds to a link without one is not part of the state, only its failing is.
- Observation.OwnershipState: the record's installation, node and build identity and the identity and fingerprint of the marker rule are not part of the model.
- Observation.CommittedRecordCovers: the record holds neither conflicts nor the marker's presence; the lemma takes them as none and present, as they were at the commit.
- Bridge.RestoreGoesToTheHostLink: a write that is skipped because the entry is already in place counts as a write of that entry.
- What a failing kernel load has pinned by then is up to the eBPF library; it is a parameter of a load.
- Serial.ReconcilesAreSerialized: is about one coordinator; `RunOnce` builds a new one for every call (`internal/agent/static_runtime.go:148-176`), so neither the gate nor the state spans two calls of it.
- Bridge.PassIsARun: takes the endpoint and device maps of the programs to be the pinned ones, which `Histories.AttachedUseThePinnedMaps` proves for the filters the agent attached.
- Gates.DisableShutsExactly: a kernel ID stands for one program or map as long as anything refers to it.
- The lookup of the spin lock in its array map, which cannot miss.
- The IPv4 header checksum of a packet whose TOS byte is edited, and a non-zero outer UDP checksum: the programs write neither.
- VNI and UDP destination port: the parser checks neither.
- Reuse of an evicted entry's memory while a program holds a pointer to it: a write to an evicted entry counts as lost.
- The re-checks of the packet bounds after a successful change of room: on a linear packet they cannot fail.
- Non-zero values other than 1 in the two ready fields, which no code writes.
- The statistics counters, fingerprints, timestamps, file modes and the JSON form of the record.
- The preparation in front of the pipeline (`RunOnce`, endpoint resolution, preflight, Flannel discovery) and everything behind foreign calls: CRI, netlink, iptables, bpftool, the file system. What discovery finds is a parameter of a run.
- Thread and namespace switching in `internal/datapath/netns_linux.go`, apart from entering or leaving a namespace failing.
- `CommitAndPublish`, `Store.Load` and `Store.Remove`: no run of the pipeline uses them.
- Error values carry no text; where a caller tells them apart they are an enumeration.
