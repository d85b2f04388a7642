/** Where the control plane and the packet programs meet: the control map, the endpoint map
    and the device map. */
module Bridge {
  import opened Bytes
  import opened Wrappers
  import opened Headers
  import opened Caches
  import opened Programs
  import opened Kernel
  import opened Runs
  import opened MapEnsure
  import opened Passes
  import Backend
  import Reconciler
  import Gates

  /** The entry the programs see for an endpoint. */
  function PodEntry(e: Endpoint): Ingress
    requires |e.peer.mac| == 6 && |e.host.mac| == 6
  {
    Ingress(Ifindex32(e.host.ifindex), e.peer.mac, e.host.mac)
  }

  /** The same entries as bytes, for the control plane, and as structures, for the programs. */
  ghost predicate MirrorsPods(order: Endian, entries: map<Frame, Frame>, pods: map<u32, Ingress>) {
    forall ip: Ipv4 ::
      && (ip in entries <==> U32(ip, 0) in pods)
      && (ip in entries && |entries[ip]| == 16 ==> pods[U32(ip, 0)] == DecodeIngress(order, entries[ip]))
  }

  ghost predicate MirrorsDevices(order: Endian, entries: map<Frame, Frame>, devices: map<u32, Device>) {
    forall key: Ipv4 ::
      && (key in entries <==> GetU32(order, key) in devices)
      && (key in entries && |entries[key]| == 12 ==> devices[GetU32(order, key)] == DecodeDevice(entries[key]))
  }

  /** The maps of programs that were loaded with the pinned endpoint and device maps. */
  ghost predicate Mirrors(order: Endian, pinned: PinnedMaps, m: Maps) {
    && IngressCache in pinned && Devmap in pinned
    && MirrorsPods(order, pinned[IngressCache].entries, m.ingress)
    && MirrorsDevices(order, pinned[Devmap].entries, m.dev)
  }

  lemma U32Injective(a: Ipv4, b: Ipv4)
    requires U32(a, 0) == U32(b, 0)
    ensures a == b
  {
    assert a[0] == b[0] && a[1] == b[1] && a[2] == b[2] && a[3] == b[3];
  }

  lemma GetU32Injective(order: Endian, a: Ipv4, b: Ipv4)
    requires GetU32(order, a) == GetU32(order, b)
    ensures a == b
  {
    if order.Big? {
      U32Injective(a, b);
    } else {
      U32Injective([a[3], a[2], a[1], a[0]], [b[3], b[2], b[1], b[0]]);
    }
  }

  /** The writes of one endpoint's turn, as the programs see them. */
  function TurnEvents(desired: DesiredState, e: Endpoint): seq<Event> {
    if Encodable(desired, e) then
      [WriteIngress(U32(e.podIp.value, 0), PodEntry(e)),
       WriteDevice(Ifindex32(desired.underlay.ifindex), Device(U32(desired.underlayIp.value, 0), desired.underlay.mac))]
    else []
  }

  function PassEvents(desired: DesiredState, uids: seq<string>): seq<Event>
    requires forall uid :: uid in uids ==> uid in desired.endpoints
  {
    if uids == [] then []
    else PassEvents(desired, uids[..|uids| - 1]) + TurnEvents(desired, desired.endpoints[uids[|uids| - 1]])
  }

  lemma PodWritten(order: Endian, entries: map<Frame, Frame>, pods: map<u32, Ingress>, e: Endpoint)
    requires MirrorsPods(order, entries, pods) && e.podIp.Some? && |e.peer.mac| == 6 && |e.host.mac| == 6
    ensures MirrorsPods(order, entries[e.podIp.value := IngressValue(order, e)],
                        pods[U32(e.podIp.value, 0) := PodEntry(e)])
  {
    EncodingRoundTrip(order, e, e.host, [0, 0, 0, 0]);
    forall ip: Ipv4 | U32(ip, 0) == U32(e.podIp.value, 0)
      ensures ip == e.podIp.value
    {
      U32Injective(ip, e.podIp.value);
    }
  }

  lemma DeviceWritten(order: Endian, entries: map<Frame, Frame>, devices: map<u32, Device>, link: Link, ip: Ipv4)
    requires MirrorsDevices(order, entries, devices) && |link.mac| == 6
    ensures MirrorsDevices(order, entries[DeviceKey(order, link) := DeviceValue(link, ip)],
                           devices[Ifindex32(link.ifindex) := Device(U32(ip, 0), link.mac)])
  {
    NativeRoundTrip(order, Ifindex32(link.ifindex));
    var v := DeviceValue(link, ip);
    assert v[4..10] == link.mac && U32(v, 0) == U32(ip, 0);
    forall key: Ipv4 | GetU32(order, key) == Ifindex32(link.ifindex)
      ensures key == DeviceKey(order, link)
    {
      GetU32Injective(order, key, DeviceKey(order, link));
    }
  }

  lemma TurnIsARun(order: Endian, pinned: PinnedMaps, m: Maps, desired: DesiredState, e: Endpoint)
    requires Mirrors(order, pinned, m)
    ensures Mirrors(order, Put(order, pinned, desired, e), After(m, TurnEvents(desired, e)))
  {
    if Encodable(desired, e) {
      var events := TurnEvents(desired, e);
      AfterTwo(m, events[0], events[1]);
      PodTurn(order, pinned, m, e);
      DeviceTurn(order, WithIngress(order, pinned, e), Step(m, events[0]), desired);
    }
  }

  lemma AfterTwo(m: Maps, a: Event, b: Event)
    ensures After(m, [a, b]) == Step(Step(m, a), b)
  {
    assert [a, b][..1] == [a] && [a][..0] == [];
    assert After(m, [a]) == Step(m, a);
  }

  lemma PodTurn(order: Endian, pinned: PinnedMaps, m: Maps, e: Endpoint)
    requires Mirrors(order, pinned, m) && e.podIp.Some? && |e.peer.mac| == 6 && |e.host.mac| == 6
    ensures Mirrors(order, WithIngress(order, pinned, e), Step(m, WriteIngress(U32(e.podIp.value, 0), PodEntry(e))))
  {
    PodWritten(order, pinned[IngressCache].entries, m.ingress, e);
  }

  lemma DeviceTurn(order: Endian, pinned: PinnedMaps, m: Maps, desired: DesiredState)
    requires Mirrors(order, pinned, m) && |desired.underlay.mac| == 6 && desired.underlayIp.Some?
    ensures Mirrors(order, WithDevice(order, pinned, desired),
                    Step(m, WriteDevice(Ifindex32(desired.underlay.ifindex),
                                        Device(U32(desired.underlayIp.value, 0), desired.underlay.mac))))
  {
    DeviceWritten(order, pinned[Devmap].entries, m.dev, desired.underlay, desired.underlayIp.value);
  }

  lemma {:induction false} AfterAppend(m: Maps, a: seq<Event>, b: seq<Event>)
    ensures After(m, a + b) == After(After(m, a), b)
    decreases |b|
  {
    if b == [] {
      assert a + b == a;
    } else {
      var front, last := b[..|b| - 1], b[|b| - 1];
      var whole := a + b;
      assert b == front + [last];
      assert whole == (a + front) + [last];
      assert whole[..|whole| - 1] == a + front && whole[|whole| - 1] == last;
      AfterAppend(m, a, front);
    }
  }

  /** What an ensure pass writes is, to the programs, a run of endpoint and device writes,
      in UID order. */
  lemma {:induction false} PassIsARun(order: Endian, pinned: PinnedMaps, m: Maps, desired: DesiredState,
                                      uids: seq<string>)
    requires Mirrors(order, pinned, m) && forall uid :: uid in uids ==> uid in desired.endpoints
    ensures Mirrors(order, AllPut(order, pinned, desired, uids), After(m, PassEvents(desired, uids)))
  {
    if uids != [] {
      var front, e := uids[..|uids| - 1], desired.endpoints[uids[|uids| - 1]];
      PassIsARun(order, pinned, m, desired, front);
      TurnIsARun(order, AllPut(order, pinned, desired, front), After(m, PassEvents(desired, front)), desired, e);
      AfterAppend(m, PassEvents(desired, front), TurnEvents(desired, e));
    }
  }

  // ---- The target of a restored packet ----

  /** A pass over the endpoints of a desired state, cut short after some of its writes. A
      write that finds its entry already in place counts as one. */
  datatype Pass = Pass(desired: DesiredState, uids: seq<string>, cut: nat)

  predicate ValidPass(p: Pass) {
    && (forall uid :: uid in p.uids ==> uid in p.desired.endpoints)
    && p.cut <= |PassEvents(p.desired, p.uids)|
  }

  predicate ValidPasses(passes: seq<Pass>) {
    forall k :: 0 <= k < |passes| ==> ValidPass(passes[k])
  }

  function WrittenBy(p: Pass): seq<Event>
    requires ValidPass(p)
  {
    PassEvents(p.desired, p.uids)[..p.cut]
  }

  /** The writes of several passes, one after the other. */
  function Written(passes: seq<Pass>): seq<Event>
    requires ValidPasses(passes)
  {
    if passes == [] then [] else Written(passes[..|passes| - 1]) + WrittenBy(passes[|passes| - 1])
  }

  predicate IsWrite(e: Event) {
    e.WriteIngress? || e.WriteDevice?
  }

  /** The endpoint and device writes of a run, in order. */
  function Writes(run: seq<Event>): seq<Event> {
    if run == [] then []
    else Writes(run[..|run| - 1]) + if IsWrite(run[|run| - 1]) then [run[|run| - 1]] else []
  }

  lemma {:induction false} WritesJoined(a: seq<Event>, b: seq<Event>)
    ensures Writes(a + b) == Writes(a) + Writes(b)
    decreases |b|
  {
    if b == [] {
      assert a + b == a;
    } else {
      var whole := a + b;
      assert whole[..|whole| - 1] == a + b[..|b| - 1] && whole[|whole| - 1] == b[|b| - 1];
      WritesJoined(a, b[..|b| - 1]);
    }
  }

  lemma {:induction false} NothingButWrites(run: seq<Event>)
    requires forall e :: e in run ==> IsWrite(e)
    ensures Writes(run) == run
    decreases |run|
  {
    if run != [] {
      NothingButWrites(run[..|run| - 1]);
      assert run == run[..|run| - 1] + [run[|run| - 1]];
    }
  }

  lemma {:induction false} PassesOnlyWrite(passes: seq<Pass>)
    requires ValidPasses(passes)
    ensures forall e :: e in Written(passes) ==> IsWrite(e)
  {
    if passes != [] {
      var p := passes[|passes| - 1];
      PassesOnlyWrite(passes[..|passes| - 1]);
      forall e | e in WrittenBy(p)
        ensures IsWrite(e)
      {
        var _ := TurnOf(p.desired, p.uids, e);
      }
    }
  }

  /** An event that is no write, put in between two parts of a run. */
  lemma PutBetween(a: seq<Event>, e: Event, b: seq<Event>)
    requires !IsWrite(e)
    ensures Writes(a + [e] + b) == Writes(a + b)
  {
    WritesJoined(a, b);
    WritesJoined(a + [e], b);
    assert (a + [e])[..|a|] == a;
  }

  /** The runs that interleave passes with other events: the passes alone are one, and so is
      every run with an event that is no write put anywhere into one. */
  lemma AnyInterleaving(passes: seq<Pass>, run: seq<Event>, i: nat, e: Event)
    requires ValidPasses(passes) && i <= |run| && !IsWrite(e)
    ensures Writes(Written(passes)) == Written(passes)
    ensures Writes(run[..i] + [e] + run[i..]) == Writes(run)
  {
    PassesOnlyWrite(passes);
    NothingButWrites(Written(passes));
    PutBetween(run[..i], e, run[i..]);
    assert run[..i] + run[i..] == run;
  }

  lemma {:induction false} LastWrittenJoined(a: seq<Event>, b: seq<Event>, pod: u32)
    ensures LastWritten(a + b, pod) == if LastWritten(b, pod).Some? then LastWritten(b, pod) else LastWritten(a, pod)
    decreases |b|
  {
    if b == [] {
      assert a + b == a;
    } else {
      var whole := a + b;
      assert whole[..|whole| - 1] == a + b[..|b| - 1] && whole[|whole| - 1] == b[|b| - 1];
      LastWrittenJoined(a, b[..|b| - 1], pod);
    }
  }

  /** Packets and evictions between the writes do not matter for what was last written. */
  lemma {:induction false} WritesDecide(run: seq<Event>, pod: u32)
    ensures LastWritten(Writes(run), pod) == LastWritten(run, pod)
    decreases |run|
  {
    if run != [] {
      var front, last := run[..|run| - 1], run[|run| - 1];
      WritesDecide(front, pod);
      var more := if IsWrite(last) then [last] else [];
      LastWrittenJoined(Writes(front), more, pod);
    }
  }

  lemma {:induction false} WrittenIsAWrite(run: seq<Event>, pod: u32)
    requires LastWritten(run, pod).Some?
    ensures WriteIngress(pod, LastWritten(run, pod).value) in run
    decreases |run|
  {
    var last := run[|run| - 1];
    if !(last.WriteIngress? && last.pod == pod) {
      WrittenIsAWrite(run[..|run| - 1], pod);
    }
  }

  /** Every event of a pass belongs to the turn of one of its endpoints. */
  lemma {:induction false} TurnOf(desired: DesiredState, uids: seq<string>, event: Event) returns (uid: string)
    requires forall uid :: uid in uids ==> uid in desired.endpoints
    requires event in PassEvents(desired, uids)
    ensures uid in uids && event in TurnEvents(desired, desired.endpoints[uid])
  {
    var front, last := uids[..|uids| - 1], uids[|uids| - 1];
    if event in TurnEvents(desired, desired.endpoints[last]) {
      uid := last;
    } else {
      uid := TurnOf(desired, front, event);
    }
  }

  /** What the pass last wrote for the pod is the entry of its endpoint `uid`. */
  ghost predicate WroteLast(p: Pass, uid: string, pod: u32)
    requires ValidPass(p)
  {
    && uid in p.uids && Encodable(p.desired, p.desired.endpoints[uid])
    && U32(p.desired.endpoints[uid].podIp.value, 0) == pod
    && LastWritten(WrittenBy(p), pod) == Some(PodEntry(p.desired.endpoints[uid]))
  }

  /** Pass `k` is the last one that wrote an entry for the pod. */
  ghost predicate LastWriter(passes: seq<Pass>, k: nat, pod: u32)
    requires k < |passes| && ValidPasses(passes)
  {
    && LastWritten(WrittenBy(passes[k]), pod).Some?
    && forall l :: k < l < |passes| ==> LastWritten(WrittenBy(passes[l]), pod).None?
  }

  lemma SomeEndpointWroteLast(p: Pass, pod: u32) returns (uid: string)
    requires ValidPass(p) && LastWritten(WrittenBy(p), pod).Some?
    ensures WroteLast(p, uid, pod)
  {
    var written := LastWritten(WrittenBy(p), pod);
    WrittenIsAWrite(WrittenBy(p), pod);
    uid := TurnOf(p.desired, p.uids, WriteIngress(pod, written.value));
  }

  lemma EarlierWriter(passes: seq<Pass>, k: nat, pod: u32)
    requires ValidPasses(passes) && k < |passes| - 1 && LastWriter(passes[..|passes| - 1], k, pod)
    requires LastWritten(WrittenBy(passes[|passes| - 1]), pod).None?
    ensures LastWriter(passes, k, pod)
  {
    var front := passes[..|passes| - 1];
    forall l | k < l < |passes|
      ensures LastWritten(WrittenBy(passes[l]), pod).None?
    {
      if l < |front| {
        assert front[l] == passes[l];
      }
    }
  }

  lemma {:induction false} SomePassWroteLast(passes: seq<Pass>, pod: u32) returns (k: nat)
    requires ValidPasses(passes) && LastWritten(Written(passes), pod).Some?
    ensures k < |passes| && LastWriter(passes, k, pod)
    ensures LastWritten(Written(passes), pod) == LastWritten(WrittenBy(passes[k]), pod)
  {
    var front, p := passes[..|passes| - 1], passes[|passes| - 1];
    LastWrittenJoined(Written(front), WrittenBy(p), pod);
    if LastWritten(WrittenBy(p), pod).Some? {
      k := |passes| - 1;
    } else {
      k := SomePassWroteLast(front, pod);
      EarlierWriter(passes, k, pod);
      assert front[k] == passes[k];
    }
  }

  /** In any run that interleaves the writes of ensure passes, complete or cut short, with
      packets and evictions, from an empty endpoint map: `tc_restore` redirects only to the
      host link of an endpoint that was desired for the inner destination address, namely by
      the last pass that wrote that address. */
  lemma RestoreGoesToTheHostLink(m0: Maps, run: seq<Event>, passes: seq<Pass>, packet: Event)
    returns (k: nat, uid: string)
    requires m0.ingress == map[] && ValidPasses(passes) && Writes(run) == Written(passes)
    requires packet.AtRestore? && Fate(After(m0, run), packet).Redirect?
    ensures TunnelOk(packet.frame)
    ensures k < |passes| && LastWriter(passes, k, Destination(InnerPacket(packet.frame)))
    ensures WroteLast(passes[k], uid, Destination(InnerPacket(packet.frame)))
    ensures var host := passes[k].desired.endpoints[uid].host;
            && Fate(After(m0, run), packet).target == Ifindex32(host.ifindex)
            && (InRange(host) ==> Fate(After(m0, run), packet).target as int == host.ifindex)
  {
    RestoreTargetIsLastWritten(m0, run, packet);
    WritesDecide(run, Destination(InnerPacket(packet.frame)));
    k := SomePassWroteLast(passes, Destination(InnerPacket(packet.frame)));
    uid := SomeEndpointWroteLast(passes[k], Destination(InnerPacket(packet.frame)));
    var host := passes[k].desired.endpoints[uid].host;
    if InRange(host) {
      IndexKept(host);
    }
  }

  // ---- The gate during and after a reconcile ----

  predicate Opens(e: Event) {
    e.WriteControl? && e.control.enabled == 1
  }

  /** The values a run of events publishes, in order. */
  function Openings(run: seq<Event>): seq<Control> {
    if run == [] then []
    else Openings(run[..|run| - 1]) + if Opens(run[|run| - 1]) then [run[|run| - 1].control] else []
  }

  predicate NoOpening(run: seq<Event>) {
    forall i :: 0 <= i < |run| ==> !Opens(run[i])
  }

  lemma {:induction false} NothingOpened(run: seq<Event>)
    ensures Openings(run) == [] <==> NoOpening(run)
    decreases |run|
  {
    if run != [] {
      NothingOpened(run[..|run| - 1]);
      assert forall i :: 0 <= i < |run| - 1 ==> run[..|run| - 1][i] == run[i];
    }
  }

  /** A run that publishes once does so at one place. */
  lemma {:induction false} OpenedOnce(run: seq<Event>) returns (p: nat)
    requires |Openings(run)| == 1
    ensures p < |run| && run[p] == WriteControl(Openings(run)[0])
    ensures NoOpening(run[..p]) && NoOpening(run[p + 1..])
    decreases |run|
  {
    var front, last := run[..|run| - 1], run[|run| - 1];
    if Opens(last) {
      p := |front|;
      NothingOpened(front);
    } else {
      p := OpenedOnce(front);
      assert front[..p] == run[..p];
      assert run[p + 1..] == front[p + 1..] + [last];
    }
  }

  /** Every packet of the run passes unchanged and teaches nothing. */
  ghost predicate PacketsInert(m: Maps, run: seq<Event>) {
    && (forall i :: 0 <= i < |run| && IsPacket(run[i]) ==> Inert(After(m, run[..i]), run[i]))
    && OnlyControlPlane(m, run, After(m, run))
  }

  lemma ShutUntilOpened(h: HostState, m: Maps, run: seq<Event>)
    requires !h.On() && m.control == h.Gate() && NoOpening(run)
    ensures PacketsInert(m, run)
  {
    DisabledIsShut(m);
    ShutGateExcludesPackets(m, run, 0);
  }

  /** Where the values a run publishes are the first part of a longer history. */
  lemma SamePublications(before: seq<Control>, a: seq<Control>, b: seq<Control>)
    requires before + a == before + b
    ensures a == b
  {
    assert (before + a)[|before|..] == a && (before + b)[|before|..] == b;
  }

  /** Packets while the fast path is off, up to the one value that is published, if any. */
  lemma InertUntilPublished(h: HostState, m: Maps, run: seq<Event>, value: Control, ok: bool) returns (p: nat)
    requires !h.On() && m.control == h.Gate() && Openings(run) == if ok then [value] else []
    ensures !ok ==> PacketsInert(m, run)
    ensures ok ==> p < |run| && run[p] == WriteControl(value) && PacketsInert(m, run[..p]) && NoOpening(run[p + 1..])
  {
    if ok {
      p := OpenedOnce(run);
      ShutUntilOpened(h, m, run[..p]);
    } else {
      p := 0;
      NothingOpened(run);
      ShutUntilOpened(h, m, run);
    }
  }

  /** A whole reconcile run, seen by the packets at a filter `f` whose program was loaded with
      the pinned control map. `shut` is the host after the disable stage, over what lies
      beneath the pins; `run` interleaves, in any way, what happens from then on: packets,
      evictions, map writes and control writes, of which those that switch the fast path on
      are the ones the host recorded for the run. Then no packet is changed or learned from
      until the run ends, if it fails, and until its one publish, if it succeeds. */
  lemma NoPacketDuringAReconcile(site: Backend.Site, a: HostState, shut: HostState, b: HostState, r: Reconciler.Run,
                                 actions: seq<Reconciler.Action>, changed: bool, ok: bool, beneath: Gates.Beneath,
                                 f: Filter, m: Maps, run: seq<Event>)
    returns (published: nat)
    requires Reconciler.Reconciled(site, a, b, r, actions, changed, ok) && Reconciler.Shut(a, shut, r)
    requires Gates.Agrees(beneath, shut) && Gates.ReadsThePin(beneath, shut, f)
    requires m.control == Gates.GateOf(beneath, f) && b.published == a.published + Openings(run)
    ensures !ok ==> PacketsInert(m, run)
    ensures ok ==> published < |run| && run[published] == WriteControl(Reconciler.PublishedValue(site, r.found))
                   && PacketsInert(m, run[..published]) && NoOpening(run[published + 1..])
  {
    Gates.PinnedGate(beneath, shut, f);
    Reconciler.RunPublishes(site, a, b, r, actions, changed, ok);
    SamePublications(a.published, Openings(run), Reconciler.PublishedIf(site, r.found, ok));
    published := InertUntilPublished(shut, m, run, Reconciler.PublishedValue(site, r.found), ok);
  }

  /** After a successful run the gate is open exactly inside the published heartbeat window,
      unless the flags switch the programs off. */
  lemma PublishOpensTheWindow(site: Backend.Site, h: HostState, found: DesiredState, now: u64)
    requires Reconciler.Published(site, h, found)
    ensures Allows(h.Gate(), now) <==>
            && site.config.flags % 2 == 0
            && site.config.heartbeat as int <= now as int <= site.config.heartbeat as int + site.config.timeout as int
  {
    GateIsTheHeartbeatWindow(h.control, now);
  }

  /** The entries of a settled host without address clashes, as the programs see them: each
      pod's own interface and MACs, and the underlay's address and MAC. The programs take the
      pod for ready exactly if its host link's MAC does not start with a zero byte. */
  lemma ExactEntriesSeen(order: Endian, pinned: PinnedMaps, m: Maps, desired: DesiredState, uid: string)
    requires Mirrors(order, pinned, m) && AllExact(order, pinned, desired) && uid in desired.endpoints
    ensures var e := desired.endpoints[uid];
            && Encodable(desired, e)
            && var pod, device := U32(e.podIp.value, 0), Ifindex32(desired.underlay.ifindex);
            && pod in m.ingress && m.ingress[pod] == Ingress(Ifindex32(e.host.ifindex), e.peer.mac, e.host.mac)
            && (InRange(e.host) ==> m.ingress[pod].ifindex as int == e.host.ifindex)
            && (PodReady(m, pod) <==> e.host.mac[0] != 0)
            && device in m.dev && m.dev[device] == Device(U32(desired.underlayIp.value, 0), desired.underlay.mac)
            && (InRange(desired.underlay) ==> device as int == desired.underlay.ifindex)
  {
    var e := desired.endpoints[uid];
    assert Exact(order, pinned, desired, e);
    EncodingRoundTrip(order, e, desired.underlay, desired.underlayIp.value);
    var key: Ipv4 := DeviceKey(order, desired.underlay);
    assert key in pinned[Devmap].entries;
  }

  // ---- Inputs for which a property fails ----

  function ExampleLink(netns: nat, ifindex: int, first: byte): Link {
    Link(netns, ifindex, "veth", [first, 0, 0, 0, 0, 1], "/proc/1/ns/net")
  }

  function ExampleEndpoint(uid: string, ifindex: int, first: byte): Endpoint {
    Endpoint(uid, "node", Some([10, 0, 0, 1]), 1, ExampleLink(1, 2, 2), ExampleLink(0, ifindex, first))
  }

  function ExampleState(endpoints: map<string, Endpoint>): DesiredState {
    DesiredState(1, true, true, ExampleLink(0, 1, 2), Some([192, 168, 0, 1]), endpoints)
  }

  /** An endpoint whose host link has the MAC 00:00:00:00:00:01: its turn writes its entry,
      whatever was in the maps, and yet it is not ready. */
  lemma ZeroMacIsNotReady(m: Maps)
    ensures var e := ExampleEndpoint("a", 7, 0);
            var after := After(m, TurnEvents(ExampleState(map["a" := e]), e));
            var pod := U32(e.podIp.value, 0);
            pod in after.ingress && after.ingress[pod] == PodEntry(e) && !PodReady(after, pod)
  {
    var e := ExampleEndpoint("a", 7, 0);
    var events := TurnEvents(ExampleState(map["a" := e]), e);
    AfterTwo(m, events[0], events[1]);
  }

  /** Two endpoints with one address behind different host links clash, so a second run over
      them reports a change. */
  lemma SharedAddressClashes(order: Endian)
    ensures var a, b := ExampleEndpoint("a", 7, 2), ExampleEndpoint("b", 8, 2);
            !NoAddressClash(order, ExampleState(map["a" := a, "b" := b]))
  {
    var a, b := ExampleEndpoint("a", 7, 2), ExampleEndpoint("b", 8, 2);
    EncodingRoundTrip(order, a, a.host, [0, 0, 0, 0]);
    EncodingRoundTrip(order, b, b.host, [0, 0, 0, 0]);
    assert DecodeIngress(order, IngressValue(order, a)).ifindex != DecodeIngress(order, IngressValue(order, b)).ifindex;
    var desired := ExampleState(map["a" := a, "b" := b]);
    assert "a" in desired.endpoints && "b" in desired.endpoints;
    assert !Agree(order, desired.endpoints["a"], desired.endpoints["b"]);
  }
}
