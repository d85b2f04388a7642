/** Whole runs: any interleaving of packets at the four hooks, evictions, and writes of the
    control plane, at packet-step granularity. */
module Runs {
  import opened Bytes
  import opened Wrappers
  import opened Headers
  import opened Caches
  import opened Programs
  import opened Encapsulation
  import Checksum

  datatype Event =
    | AtInitE(ifindex: u32, now: u64, h: Helpers, frame: Frame)
    | AtInitIn(now: u64, h: Helpers, frame: Frame)
    | AtMasq(ifindex: u32, now: u64, hash: bv32, h: Helpers, frame: Frame)
    | AtRestore(ifindex: u32, now: u64, h: Helpers, frame: Frame)
    | EvictIngress(pod: u32)
    | EvictEgressIp(pod: u32)
    | EvictEgress(node: u32)
    | EvictPolicy(flow: Flow)
    | EvictDevice(device: u32)
    | WriteIngress(pod: u32, entry: Ingress)
    | WriteDevice(device: u32, info: Device)
    | WriteControl(control: Control)

  predicate IsPacket(e: Event) {
    e.AtInitE? || e.AtInitIn? || e.AtMasq? || e.AtRestore?
  }

  function Step(m: Maps, e: Event): Maps {
    match e
    case AtInitE(ifindex, now, h, frame) => InitE(m, ifindex, now, h, frame).0
    case AtInitIn(now, h, frame) => InitIn(m, now, h, frame).0
    case AtMasq(_, _, _, _, _) => m
    case AtRestore(_, _, _, _) => m
    case EvictIngress(pod) => m.(ingress := m.ingress - {pod})
    case EvictEgressIp(pod) => m.(egressip := m.egressip - {pod})
    case EvictEgress(node) => m.(egress := m.egress - {node})
    case EvictPolicy(flow) => m.(policy := m.policy - {flow})
    case EvictDevice(device) => m.(dev := m.dev - {device})
    case WriteIngress(pod, entry) => m.(ingress := m.ingress[pod := entry])
    case WriteDevice(device, info) => m.(dev := m.dev[device := info])
    case WriteControl(control) => m.(control := Some(control))
  }

  /** What becomes of the packet of a packet event. */
  function Fate(m: Maps, e: Event): Outcome
    requires IsPacket(e)
  {
    match e
    case AtInitE(ifindex, now, h, frame) => InitE(m, ifindex, now, h, frame).1
    case AtInitIn(now, h, frame) => InitIn(m, now, h, frame).1
    case AtMasq(ifindex, now, hash, h, frame) => Masq(m, ifindex, now, hash, h, frame)
    case AtRestore(ifindex, now, h, frame) => Restore(m, ifindex, now, h, frame)
  }

  /** The maps after a run. */
  function After(m0: Maps, run: seq<Event>): Maps
    decreases |run|
  {
    if run == [] then m0 else Step(After(m0, run[..|run| - 1]), run[|run| - 1])
  }

  ghost predicate Within<K, V>(a: map<K, V>, b: map<K, V>) {
    forall k :: k in a ==> k in b && a[k] == b[k]
  }

  // ---- Where cached entries come from ----

  predicate LearningPacket(e: Event) {
    e.AtInitE? && LearnsEgress(e.frame)
  }

  predicate TeachesHeader(e: Event, node: u32, entry: Egress) {
    LearningPacket(e) && U32(e.frame, 30) == node && entry == Egress(e.frame[..OUTER_LEN], e.ifindex)
  }

  predicate TeachesRoute(e: Event, pod: u32, node: u32) {
    LearningPacket(e) && Destination(InnerPacket(e.frame)) == pod && U32(e.frame, 30) == node
  }

  ghost predicate HeaderLearned(run: seq<Event>, node: u32, entry: Egress) {
    exists e :: e in run && TeachesHeader(e, node, entry)
  }

  ghost predicate RouteLearned(run: seq<Event>, pod: u32, node: u32) {
    exists e :: e in run && TeachesRoute(e, pod, node)
  }

  /** What `tc_init_e` does to the maps other than the flow cache. */
  lemma InitEEffect(m: Maps, e: Event)
    requires e.AtInitE?
    ensures Step(m, e).ingress == m.ingress && Step(m, e).dev == m.dev && Step(m, e).control == m.control
    ensures Step(m, e).egress == m.egress
            || (LearningPacket(e) && U32(e.frame, 30) !in m.egress
                && Step(m, e).egress == m.egress[U32(e.frame, 30) := Egress(e.frame[..OUTER_LEN], e.ifindex)])
    ensures Step(m, e).egressip == m.egressip
            || (LearningPacket(e) && Destination(InnerPacket(e.frame)) !in m.egressip
                && Step(m, e).egressip == m.egressip[Destination(InnerPacket(e.frame)) := U32(e.frame, 30)])
  {
  }

  /** What `tc_init_in` does to them. */
  lemma InitInEffect(m: Maps, e: Event)
    requires e.AtInitIn?
    ensures Step(m, e).egress == m.egress && Step(m, e).egressip == m.egressip
    ensures Step(m, e).dev == m.dev && Step(m, e).control == m.control
    ensures if LearnsMacs(m, e.now, e.frame) then
              var pod := Destination(Packet(e.frame));
              Step(m, e).ingress == m.ingress[pod := m.ingress[pod].(dstMac := e.frame[..6], srcMac := e.frame[6..12])]
            else Step(m, e).ingress == m.ingress
  {
  }

  /** The headers and routes a map step may leave. */
  ghost predicate CachesTraced(m: Maps, m': Maps, e: Event) {
    && (forall node :: node in m'.egress ==>
          (node in m.egress && m'.egress[node] == m.egress[node]) || TeachesHeader(e, node, m'.egress[node]))
    && (forall pod :: pod in m'.egressip ==>
          (pod in m.egressip && m'.egressip[pod] == m.egressip[pod]) || TeachesRoute(e, pod, m'.egressip[pod]))
  }

  lemma CachesStep(m: Maps, e: Event)
    ensures CachesTraced(m, Step(m, e), e)
  {
    var m' := Step(m, e);
    match e
    case AtInitE(_, _, _, _) => InitEEffect(m, e);
    case AtInitIn(_, _, _) => InitInEffect(m, e);
    case _ =>
  }

  /** Every cached header and every cached route was read off one packet of the run. */
  lemma {:induction false} CachesComeFromPackets(m0: Maps, run: seq<Event>)
    requires m0.egress == map[] && m0.egressip == map[]
    ensures forall node :: node in After(m0, run).egress ==> HeaderLearned(run, node, After(m0, run).egress[node])
    ensures forall pod :: pod in After(m0, run).egressip ==> RouteLearned(run, pod, After(m0, run).egressip[pod])
    decreases |run|
  {
    if run != [] {
      var prefix, last := run[..|run| - 1], run[|run| - 1];
      assert run == prefix + [last];
      CachesComeFromPackets(m0, prefix);
      CachesStep(After(m0, prefix), last);
      LearnedEarlier(prefix, last, After(m0, run));
    }
  }

  /** What was learned in a prefix was learned in the run. */
  lemma LearnedEarlier(prefix: seq<Event>, last: Event, m: Maps)
    ensures forall node, entry :: HeaderLearned(prefix, node, entry) ==> HeaderLearned(prefix + [last], node, entry)
    ensures forall pod, node :: RouteLearned(prefix, pod, node) ==> RouteLearned(prefix + [last], pod, node)
    ensures forall node, entry :: TeachesHeader(last, node, entry) ==> HeaderLearned(prefix + [last], node, entry)
    ensures forall pod, node :: TeachesRoute(last, pod, node) ==> RouteLearned(prefix + [last], pod, node)
  {
    assert last in prefix + [last];
    forall node, entry | HeaderLearned(prefix, node, entry)
      ensures HeaderLearned(prefix + [last], node, entry)
    {
      var e :| e in prefix && TeachesHeader(e, node, entry);
      assert e in prefix + [last];
    }
    forall pod, node | RouteLearned(prefix, pod, node)
      ensures RouteLearned(prefix + [last], pod, node)
    {
      var e :| e in prefix && TeachesRoute(e, pod, node);
      assert e in prefix + [last];
    }
  }

  lemma HeaderOrigin(m0: Maps, run: seq<Event>, node: u32) returns (e: Event)
    requires m0.egress == map[] && m0.egressip == map[]
    requires node in After(m0, run).egress
    ensures e in run && TeachesHeader(e, node, After(m0, run).egress[node])
  {
    CachesComeFromPackets(m0, run);
    e :| e in run && TeachesHeader(e, node, After(m0, run).egress[node]);
  }

  lemma RouteOrigin(m0: Maps, run: seq<Event>, pod: u32) returns (e: Event)
    requires m0.egress == map[] && m0.egressip == map[]
    requires pod in After(m0, run).egressip
    ensures e in run && TeachesRoute(e, pod, After(m0, run).egressip[pod])
  {
    CachesComeFromPackets(m0, run);
    e :| e in run && TeachesRoute(e, pod, After(m0, run).egressip[pod]);
  }

  /** Inductive invariant: every cached header passes the field checks of a tunnel frame
      and is stored under its own destination address. */
  lemma CachedHeadersOk(m0: Maps, run: seq<Event>, node: u32)
    requires m0.egress == map[] && m0.egressip == map[]
    requires node in After(m0, run).egress
    ensures TemplateOk(node, After(m0, run).egress[node].header)
  {
    var e := HeaderOrigin(m0, run, node);
    LearnedTemplateOk(e.frame);
  }

  /** The route and the header a redirected packet used. */
  lemma RedirectUsesCaches(m: Maps, e: Event) returns (node: u32)
    requires e.AtMasq? && Fate(m, e).Redirect?
    ensures PlainOk(e.frame)
    ensures Destination(Packet(e.frame)) in m.egressip && node == m.egressip[Destination(Packet(e.frame))]
    ensures node in m.egress
    ensures Fate(m, e) == Redirect(m.egress[node].ifindex,
                                   Encapsulated(m.egress[node].header, e.frame, SourcePort(e.hash)))
  {
    node := m.egressip[Destination(Packet(e.frame))];
  }

  // ---- The fast path refines the slow path ----

  /** The slow path: pods live behind nodes, and the kernel's tunnel puts one fixed header
      and one fixed interface in front of a node's traffic. */
  datatype Network = Network(route: u32 -> u32, header: u32 -> Header, out: u32 -> u32)

  /** Header bytes that vary between packets of the slow path: total length, identification,
      checksum, UDP source port, UDP length. */
  predicate Varies(k: nat) {
    Patched(k) || k == 18 || k == 19
  }

  predicate HeaderOf(net: Network, node: u32, f: Frame)
    requires OUTER_LEN <= |f|
  {
    forall k: nat :: k < OUTER_LEN && !Varies(k) ==> f[k] == net.header(node)[k]
  }

  /** `f` carries the packet bytes of `s` behind the header of its route. Identification,
      header checksum and UDP source port are the slow path's to choose. */
  predicate BehindRouteHeader(net: Network, s: Frame, f: Frame)
    requires PlainOk(s)
  {
    && |f| == |s| + 50
    && f[OUTER_LEN..] == s[ETH_HLEN..]
    && HeaderOf(net, net.route(Destination(Packet(s))), f)
  }

  /** `f` is a slow-path encapsulation of the packet in `s`: the IP and UDP lengths are exact,
      too. */
  predicate SlowPathFrame(net: Network, s: Frame, f: Frame)
    requires PlainOk(s)
  {
    BehindRouteHeader(net, s, f) && U16(f, 16) == |s| + 36 && U16(f, 38) == |s| + 16
  }

  /** A packet at `tc_init_e` that the slow path sent. */
  predicate SentBySlowPath(net: Network, e: Event)
    requires LearningPacket(e)
  {
    var node := net.route(Destination(InnerPacket(e.frame)));
    U32(e.frame, 30) == node && HeaderOf(net, node, e.frame) && e.ifindex == net.out(node)
  }

  /** Packet `j` was redirected as it is now seen at `tc_init_e` of the interface it left by. */
  ghost predicate RedirectedInto(m0: Maps, run: seq<Event>, j: nat, l: Event)
    requires j < |run|
  {
    && run[j].AtMasq? && Fate(After(m0, run[..j]), run[j]).Redirect?
    && l.AtInitE? && l.frame == Fate(After(m0, run[..j]), run[j]).frame
    && l.ifindex == Fate(After(m0, run[..j]), run[j]).target
  }

  /** Event `i` is not a frame that `tc_masq` redirected earlier in the run. */
  ghost predicate FromOutside(m0: Maps, run: seq<Event>, i: nat)
    requires i < |run|
  {
    forall j :: 0 <= j < i ==> !RedirectedInto(m0, run, j, run[i])
  }

  lemma FromOutsidePrefix(m0: Maps, run: seq<Event>, n: nat, i: nat)
    requires i < n <= |run|
    ensures FromOutside(m0, run[..n], i) <==> FromOutside(m0, run, i)
  {
    forall j | 0 <= j < i
      ensures RedirectedInto(m0, run[..n], j, run[i]) <==> RedirectedInto(m0, run, j, run[i])
    {
      assert run[..n][..j] == run[..j];
    }
  }

  lemma RedirectedEarlier(m0: Maps, run: seq<Event>, i: nat) returns (j: nat)
    requires i < |run| && !FromOutside(m0, run, i)
    ensures j < i && RedirectedInto(m0, run, j, run[i])
    ensures forall l :: l in run[..j] ==> l in run[..i]
  {
    j :| 0 <= j < i && RedirectedInto(m0, run, j, run[i]);
    assert run[..j] == run[..i][..j];
  }

  ghost predicate SlowPathUnlessOwn(net: Network, m0: Maps, run: seq<Event>, i: nat)
    requires i < |run|
  {
    LearningPacket(run[i]) && FromOutside(m0, run, i) ==> SentBySlowPath(net, run[i])
  }

  /** Every packet from outside that the cache learns from was sent by the slow path. */
  ghost predicate SlowPathOutside(net: Network, m0: Maps, run: seq<Event>) {
    forall i :: 0 <= i < |run| ==> SlowPathUnlessOwn(net, m0, run, i)
  }

  lemma SlowPathOutsidePrefix(net: Network, m0: Maps, run: seq<Event>, n: nat)
    requires n <= |run| && SlowPathOutside(net, m0, run)
    ensures SlowPathOutside(net, m0, run[..n])
  {
    forall i | 0 <= i < n
      ensures SlowPathUnlessOwn(net, m0, run[..n], i)
    {
      assert SlowPathUnlessOwn(net, m0, run, i);
      FromOutsidePrefix(m0, run, n, i);
    }
  }

  ghost predicate TaughtBySlowPath(net: Network, run: seq<Event>) {
    forall l :: l in run && LearningPacket(l) ==> SentBySlowPath(net, l)
  }

  /** The header and the interface of a redirected packet are the slow path's, if it taught
      the cache; a learner that sees the frame learns the same again. */
  lemma RedirectLooksSlow(net: Network, m0: Maps, run: seq<Event>, e: Event, l: Event)
    requires m0.egress == map[] && m0.egressip == map[] && TaughtBySlowPath(net, run)
    requires e.AtMasq? && Fate(After(m0, run), e).Redirect?
    requires LearningPacket(l) && l.frame == Fate(After(m0, run), e).frame
             && l.ifindex == Fate(After(m0, run), e).target
    ensures SentBySlowPath(net, l)
  {
    var m := After(m0, run);
    var node := RedirectUsesCaches(m, e);
    var taughtRoute := RouteOrigin(m0, run, Destination(Packet(e.frame)));
    assert SentBySlowPath(net, taughtRoute);
    var taughtHeader := HeaderOrigin(m0, run, node);
    assert SentBySlowPath(net, taughtHeader);
    CachedHeadersOk(m0, run, node);
    EncapsulatedBytes(m.egress[node].header, e.frame, SourcePort(e.hash));
    HeaderCarried(net, node, taughtHeader.frame, m.egress[node].header, l.frame);
    SameInnerDestination(e.frame, l.frame);
    SameOuterDestination(m.egress[node].header, l.frame);
  }

  lemma SameInnerDestination(s: Frame, f: Frame)
    requires PlainOk(s) && |f| == |s| + 50 && f[OUTER_LEN..] == s[ETH_HLEN..] && LearnsEgress(f)
    ensures Destination(InnerPacket(f)) == Destination(Packet(s))
  {
  }

  lemma SameOuterDestination(t: Header, f: Frame)
    requires OUTER_LEN <= |f| && forall k: nat :: k < OUTER_LEN && !Patched(k) ==> f[k] == t[k]
    ensures U32(f, 30) == U32(t, 30)
  {
  }

  lemma LastTaughtBySlowPath(net: Network, m0: Maps, run: seq<Event>)
    requires m0.egress == map[] && m0.egressip == map[] && SlowPathOutside(net, m0, run)
    requires run != [] && TaughtBySlowPath(net, run[..|run| - 1]) && LearningPacket(run[|run| - 1])
    ensures SentBySlowPath(net, run[|run| - 1])
  {
    var n := |run| - 1;
    assert SlowPathUnlessOwn(net, m0, run, n);
    if !FromOutside(m0, run, n) {
      var j := RedirectedEarlier(m0, run, n);
      RedirectLooksSlow(net, m0, run[..j], run[j], run[n]);
    }
  }

  /** So the cache never learns anything but the slow path, whatever it sees of its own. */
  lemma {:induction false} OnlyTheSlowPathTeaches(net: Network, m0: Maps, run: seq<Event>)
    requires m0.egress == map[] && m0.egressip == map[] && SlowPathOutside(net, m0, run)
    ensures TaughtBySlowPath(net, run)
    decreases |run|
  {
    if run != [] {
      var prefix := run[..|run| - 1];
      SlowPathOutsidePrefix(net, m0, run, |run| - 1);
      OnlyTheSlowPathTeaches(net, m0, prefix);
      forall l | l in run && LearningPacket(l)
        ensures SentBySlowPath(net, l)
      {
        if l !in prefix {
          LastTaughtBySlowPath(net, m0, run);
        }
      }
    }
  }

  /** From empty caches, whatever else happens in the run: if every packet the cache learned
      from was sent by the slow path, save for frames that `tc_masq` redirected earlier in the
      same run, each packet `tc_masq` redirects leaves through the interface of its route with
      its bytes behind the header of its route; and it is a slow-path encapsulation exactly
      up to the size at which the 16-bit length fields truncate. */
  lemma FastPathRefinesSlowPath(net: Network, m0: Maps, run: seq<Event>, e: Event)
    requires m0.egress == map[] && m0.egressip == map[] && SlowPathOutside(net, m0, run)
    requires e.AtMasq? && Fate(After(m0, run), e).Redirect?
    ensures PlainOk(e.frame)
    ensures BehindRouteHeader(net, e.frame, Fate(After(m0, run), e).frame)
    ensures SlowPathFrame(net, e.frame, Fate(After(m0, run), e).frame) <==> |e.frame| + 36 <= 65535
    ensures Fate(After(m0, run), e).target == net.out(net.route(Destination(Packet(e.frame))))
  {
    OnlyTheSlowPathTeaches(net, m0, run);
    var m := After(m0, run);
    var node := RedirectUsesCaches(m, e);
    var taughtRoute := RouteOrigin(m0, run, Destination(Packet(e.frame)));
    assert SentBySlowPath(net, taughtRoute);
    var taughtHeader := HeaderOrigin(m0, run, node);
    assert SentBySlowPath(net, taughtHeader);
    var entry, port := m.egress[node], SourcePort(e.hash);
    SlowPathHeader(net, node, taughtHeader.frame, entry.header, e.frame, port);
  }

  // ---- A slow path that changes ----

  /** Two frames with the same outer header, save for what varies between packets. */
  predicate SameHeader(a: Frame, b: Frame) {
    OUTER_LEN <= |a| && OUTER_LEN <= |b| && forall k: nat :: k < OUTER_LEN && !Varies(k) ==> a[k] == b[k]
  }

  lemma IndexBefore(run: seq<Event>, j: nat, e: Event) returns (i: nat)
    requires j <= |run| && e in run[..j]
    ensures i < j && run[i] == e
  {
    i :| 0 <= i < j && run[..j][i] == e;
  }

  lemma HeaderKeptIn(l: Frame, t: Header, s: Frame, port: nat)
    requires OUTER_LEN <= |l| && t == l[..OUTER_LEN] && ETH_HLEN <= |s| && port < TWO_TO_THE_16
    ensures Carried(s, Encapsulated(t, s, port)) && SameHeader(l, Encapsulated(t, s, port))
  {
    EncapsulatedBytes(t, s, port);
    HeaderPasted(l, t, Encapsulated(t, s, port));
  }

  /** The events that taught the cache the header and the route of a redirected packet. */
  lemma TeachersOf(m0: Maps, run: seq<Event>, j: nat, e: Event) returns (header: nat, route: nat)
    requires m0.egress == map[] && m0.egressip == map[] && j <= |run|
    requires e.AtMasq? && Fate(After(m0, run[..j]), e).Redirect?
    ensures header < j && LearningPacket(run[header]) && route < j && LearningPacket(run[route])
    ensures PlainOk(e.frame) && Carried(e.frame, Fate(After(m0, run[..j]), e).frame)
    ensures SameHeader(run[header].frame, Fate(After(m0, run[..j]), e).frame)
    ensures run[header].ifindex == Fate(After(m0, run[..j]), e).target
    ensures U32(run[header].frame, 30) == U32(run[route].frame, 30)
    ensures Destination(InnerPacket(run[route].frame)) == Destination(Packet(e.frame))
  {
    var m := After(m0, run[..j]);
    var node := RedirectUsesCaches(m, e);
    var taughtRoute := RouteOrigin(m0, run[..j], Destination(Packet(e.frame)));
    var taughtHeader := HeaderOrigin(m0, run[..j], node);
    route := IndexBefore(run, j, taughtRoute);
    header := IndexBefore(run, j, taughtHeader);
    HeaderKeptIn(taughtHeader.frame, m.egress[node].header, e.frame, SourcePort(e.hash));
  }

  /** The packet bytes of `s` behind an outer header. */
  predicate Carried(s: Frame, f: Frame) {
    ETH_HLEN <= |s| && |f| == |s| + 50 && f[OUTER_LEN..] == s[ETH_HLEN..]
  }

  lemma HeaderPasted(l: Frame, t: Header, f: Frame)
    requires OUTER_LEN <= |l| && t == l[..OUTER_LEN] && OUTER_LEN <= |f|
    requires forall k: nat :: k < OUTER_LEN && !Patched(k) ==> f[k] == t[k]
    ensures SameHeader(l, f)
  {
    forall k: nat | k < OUTER_LEN && !Varies(k)
      ensures l[k] == f[k]
    {
      assert f[k] == t[k] == l[k];
    }
  }

  /** The packet from outside that a header goes back to, over any number of own frames. */
  lemma {:induction false} HeaderFromOutside(m0: Maps, run: seq<Event>, i: nat) returns (o: nat)
    requires m0.egress == map[] && m0.egressip == map[] && i < |run| && LearningPacket(run[i])
    ensures o <= i && LearningPacket(run[o]) && FromOutside(m0, run, o)
    ensures SameHeader(run[o].frame, run[i].frame) && run[o].ifindex == run[i].ifindex
    decreases i
  {
    if FromOutside(m0, run, i) {
      o := i;
    } else {
      var j := RedirectedEarlier(m0, run, i);
      var header, _ := TeachersOf(m0, run, j, run[j]);
      o := HeaderFromOutside(m0, run, header);
    }
  }

  /** The same for a route. */
  lemma {:induction false} RouteFromOutside(m0: Maps, run: seq<Event>, i: nat) returns (o: nat)
    requires m0.egress == map[] && m0.egressip == map[] && i < |run| && LearningPacket(run[i])
    ensures o <= i && LearningPacket(run[o]) && FromOutside(m0, run, o)
    ensures Destination(InnerPacket(run[o].frame)) == Destination(InnerPacket(run[i].frame))
    ensures U32(run[o].frame, 30) == U32(run[i].frame, 30)
    decreases i
  {
    if FromOutside(m0, run, i) {
      o := i;
    } else {
      var j := RedirectedEarlier(m0, run, i);
      var header, route := TeachersOf(m0, run, j, run[j]);
      SameInnerDestination(run[j].frame, run[i].frame);
      SameNode(run[header].frame, run[i].frame);
      o := RouteFromOutside(m0, run, route);
    }
  }

  lemma SameNode(a: Frame, b: Frame)
    requires SameHeader(a, b)
    ensures U32(a, 30) == U32(b, 30)
  {
    assert !Varies(30) && !Varies(31) && !Varies(32) && !Varies(33);
  }

  /** The slow path may change with every event: `nets[i]` is the one in force at event `i`. */
  ghost predicate SlowPathsOutside(nets: seq<Network>, m0: Maps, run: seq<Event>) {
    |nets| == |run| && forall i :: 0 <= i < |run| ==> SlowPathUnlessOwn(nets[i], m0, run, i)
  }

  /** With a slow path that changes during the run, a redirected packet goes where the slow
      path stood when its route and its header were taught, by one packet from outside each;
      so it goes where the slow path stands now, if that has not changed in the two since. */
  lemma FastPathFollowsItsTeachers(nets: seq<Network>, m0: Maps, run: seq<Event>, e: Event, now: Network)
    returns (header: nat, route: nat)
    requires m0.egress == map[] && m0.egressip == map[] && SlowPathsOutside(nets, m0, run)
    requires e.AtMasq? && Fate(After(m0, run), e).Redirect?
    ensures PlainOk(e.frame) && header < |run| && route < |run|
    ensures LearningPacket(run[header]) && FromOutside(m0, run, header)
    ensures LearningPacket(run[route]) && FromOutside(m0, run, route)
    ensures var taught := Network(nets[route].route, nets[header].header, nets[header].out);
            var node := taught.route(Destination(Packet(e.frame)));
            && BehindRouteHeader(taught, e.frame, Fate(After(m0, run), e).frame)
            && Fate(After(m0, run), e).target == taught.out(node)
            && (now.route(Destination(Packet(e.frame))) == node && now.header(node) == taught.header(node)
                && now.out(node) == taught.out(node) ==>
                  && BehindRouteHeader(now, e.frame, Fate(After(m0, run), e).frame)
                  && Fate(After(m0, run), e).target == now.out(node))
  {
    assert run[..|run|] == run;
    var f := Fate(After(m0, run), e).frame;
    var h, r := TeachersOf(m0, run, |run|, e);
    header := HeaderFromOutside(m0, run, h);
    route := RouteFromOutside(m0, run, r);
    assert SlowPathUnlessOwn(nets[header], m0, run, header) && SlowPathUnlessOwn(nets[route], m0, run, route);
    SameNode(run[header].frame, run[h].frame);
    HeaderTaught(nets[header], U32(run[header].frame, 30), run[header].frame, run[h].frame, f);
  }

  lemma HeaderTaught(net: Network, node: u32, a: Frame, b: Frame, c: Frame)
    requires SameHeader(a, b) && SameHeader(b, c) && HeaderOf(net, node, a)
    ensures HeaderOf(net, node, c)
  {
    forall k: nat | k < OUTER_LEN && !Varies(k)
      ensures c[k] == net.header(node)[k]
    {
      assert a[k] == b[k] == c[k];
    }
  }

  // ---- The slow path's header ----

  lemma SlowPathHeader(net: Network, node: u32, l: Frame, t: Header, s: Frame, port: nat)
    requires OUTER_LEN <= |l| && t == l[..OUTER_LEN] && HeaderOf(net, node, l)
    requires PlainOk(s) && port < TWO_TO_THE_16 && node == net.route(Destination(Packet(s)))
    ensures BehindRouteHeader(net, s, Encapsulated(t, s, port))
    ensures SlowPathFrame(net, s, Encapsulated(t, s, port)) <==> |s| + 36 <= 65535
  {
    EncapsulatedBytes(t, s, port);
    BuiltAsSlowPath(net, node, l, t, s, port, Encapsulated(t, s, port));
  }

  lemma BuiltAsSlowPath(net: Network, node: u32, l: Frame, t: Header, s: Frame, port: nat, f: Frame)
    requires OUTER_LEN <= |l| && t == l[..OUTER_LEN] && HeaderOf(net, node, l)
    requires PlainOk(s) && node == net.route(Destination(Packet(s))) && Built(t, s, port, f)
    ensures BehindRouteHeader(net, s, f)
    ensures SlowPathFrame(net, s, f) <==> |s| + 36 <= 65535
  {
    HeaderCarried(net, node, l, t, f);
    BuiltLengths(t, s, port, f);
  }

  lemma HeaderCarried(net: Network, node: u32, s: Frame, t: Header, f: Frame)
    requires OUTER_LEN <= |s| && OUTER_LEN <= |f| && t == s[..OUTER_LEN]
    requires HeaderOf(net, node, s)
    requires forall k: nat :: k < OUTER_LEN && !Patched(k) ==> f[k] == t[k]
    ensures HeaderOf(net, node, f)
  {
    forall k: nat | k < OUTER_LEN && !Varies(k)
      ensures f[k] == net.header(node)[k]
    {
      assert f[k] == t[k] == s[k];
    }
  }

  // ---- Redirected frames parse, verify and come back out ----

  /** In every run from empty caches each redirected frame parses as a tunnel around the
      original packet, addressed to the node the route cache names, exactly when its lengths
      admit it; its lengths are those of the frame exactly when they fit in 16 bits. */
  lemma RedirectedFramesParse(m0: Maps, run: seq<Event>, e: Event)
    requires m0.egress == map[] && m0.egressip == map[]
    requires e.AtMasq? && Fate(After(m0, run), e).Redirect?
    ensures PlainOk(e.frame)
    ensures var m := After(m0, run);
            && Destination(Packet(e.frame)) in m.egressip
            && var node := m.egressip[Destination(Packet(e.frame))];
            && node in m.egress
            && (Carries(node, m.egress[node].header, e.frame, Fate(m, e).frame) <==> Admitted(e.frame))
            && (Wraps(node, m.egress[node].header, e.frame, Fate(m, e).frame) <==> |e.frame| + 36 <= 65535)
            && 49152 <= U16(Fate(m, e).frame, 34) <= 65534
  {
    var m := After(m0, run);
    var node := RedirectUsesCaches(m, e);
    CachedHeadersOk(m0, run, node);
    EncapsulatedParses(node, m.egress[node].header, e.frame, SourcePort(e.hash));
    EncapsulatedBytes(m.egress[node].header, e.frame, SourcePort(e.hash));
  }

  predicate OuterChecksumOk(f: Frame) {
    ETH_HLEN + IP_LEN <= |f| && Checksum.Verifies(Checksum.HeaderWords(f, ETH_HLEN))
  }

  ghost predicate ValidUnlessOwn(m0: Maps, run: seq<Event>, i: nat)
    requires i < |run|
  {
    LearningPacket(run[i]) && FromOutside(m0, run, i) ==> OuterChecksumOk(run[i].frame)
  }

  /** Every packet from outside that the cache learns from has a valid outer checksum. */
  ghost predicate ValidOutside(m0: Maps, run: seq<Event>) {
    forall i :: 0 <= i < |run| ==> ValidUnlessOwn(m0, run, i)
  }

  lemma ValidOutsidePrefix(m0: Maps, run: seq<Event>, n: nat)
    requires n <= |run| && ValidOutside(m0, run)
    ensures ValidOutside(m0, run[..n])
  {
    forall i | 0 <= i < n
      ensures ValidUnlessOwn(m0, run[..n], i)
    {
      assert ValidUnlessOwn(m0, run, i);
      FromOutsidePrefix(m0, run, n, i);
    }
  }

  lemma RedirectedChecksum(m0: Maps, run: seq<Event>, e: Event)
    requires m0.egress == map[] && m0.egressip == map[]
    requires forall l :: l in run && LearningPacket(l) ==> OuterChecksumOk(l.frame)
    requires e.AtMasq? && Fate(After(m0, run), e).Redirect?
    ensures OuterChecksumOk(Fate(After(m0, run), e).frame)
  {
    var m := After(m0, run);
    var node := RedirectUsesCaches(m, e);
    CachedHeadersOk(m0, run, node);
    var l := HeaderOrigin(m0, run, node);
    SameOuterWords(l.frame, m.egress[node].header);
    ChecksumCarriesOver(m.egress[node].header, e.frame, SourcePort(e.hash));
  }

  lemma LastChecksumValid(m0: Maps, run: seq<Event>)
    requires m0.egress == map[] && m0.egressip == map[] && ValidOutside(m0, run)
    requires run != [] && LearningPacket(run[|run| - 1])
    requires forall l :: l in run[..|run| - 1] && LearningPacket(l) ==> OuterChecksumOk(l.frame)
    ensures OuterChecksumOk(run[|run| - 1].frame)
  {
    var n := |run| - 1;
    assert ValidUnlessOwn(m0, run, n);
    if !FromOutside(m0, run, n) {
      var j := RedirectedEarlier(m0, run, n);
      RedirectedChecksum(m0, run[..j], run[j]);
    }
  }

  lemma {:induction false} OnlyValidChecksumsTeach(m0: Maps, run: seq<Event>)
    requires m0.egress == map[] && m0.egressip == map[] && ValidOutside(m0, run)
    ensures forall l :: l in run && LearningPacket(l) ==> OuterChecksumOk(l.frame)
    decreases |run|
  {
    if run != [] {
      var prefix := run[..|run| - 1];
      ValidOutsidePrefix(m0, run, |run| - 1);
      OnlyValidChecksumsTeach(m0, prefix);
      forall l | l in run && LearningPacket(l)
        ensures OuterChecksumOk(l.frame)
      {
        if l !in prefix {
          LastChecksumValid(m0, run);
        }
      }
    }
  }

  /** If every packet from outside that the cache learned from had a valid outer checksum, so
      has every redirected frame, of any length. */
  lemma RedirectedChecksumsVerify(m0: Maps, run: seq<Event>, e: Event)
    requires m0.egress == map[] && m0.egressip == map[] && ValidOutside(m0, run)
    requires e.AtMasq? && Fate(After(m0, run), e).Redirect?
    ensures OuterChecksumOk(Fate(After(m0, run), e).frame)
  {
    OnlyValidChecksumsTeach(m0, run);
    RedirectedChecksum(m0, run, e);
  }

  lemma SameOuterWords(f: Frame, t: Header)
    requires OUTER_LEN <= |f| && t == f[..OUTER_LEN]
    ensures Checksum.HeaderWords(f, ETH_HLEN) == Checksum.HeaderWords(t, ETH_HLEN)
  {
    forall k | 0 <= k < 10
      ensures Checksum.HeaderWords(f, ETH_HLEN)[k] == Checksum.HeaderWords(t, ETH_HLEN)[k]
    {
      assert U16(f, ETH_HLEN + 2 * k) == U16(t, ETH_HLEN + 2 * k);
    }
  }

  /** End to end: a frame redirected in any run of the sender is redirected by a receiver
      exactly when its lengths admit it and the receiver's devices and caches match, and the
      pod then gets the original frame from offset 12 on behind its own two MACs. */
  lemma DeliveryRoundTrip(m0: Maps, run: seq<Event>, e: Event, m': Maps, e': Event)
      returns (node: u32)
    requires m0.egress == map[] && m0.egressip == map[]
    requires e.AtMasq? && Fate(After(m0, run), e).Redirect?
    requires e'.AtRestore? && e'.frame == Fate(After(m0, run), e).frame
    ensures PlainOk(e.frame)
    ensures Destination(Packet(e.frame)) in After(m0, run).egressip
    ensures node == After(m0, run).egressip[Destination(Packet(e.frame))]
    ensures node in After(m0, run).egress
    ensures Fate(m', e').Redirect? <==>
            && Admitted(e.frame)
            && Deliverable(m', e'.ifindex, e'.now, node, After(m0, run).egress[node].header, e.frame)
            && e'.h.roomAdjusted && e'.h.redirected
    ensures Fate(m', e').Redirect? ==>
              && Destination(Packet(e.frame)) in m'.ingress
              && var entry := m'.ingress[Destination(Packet(e.frame))];
              Fate(m', e') == Redirect(entry.ifindex, entry.dstMac + entry.srcMac + e.frame[12..])
  {
    var m := After(m0, run);
    node := RedirectUsesCaches(m, e);
    CachedHeadersOk(m0, run, node);
    RestoreUndoesMasq(node, m.egress[node].header, e.frame, SourcePort(e.hash), m', e'.ifindex, e'.now, e'.h);
  }

  // ---- Delivery under the pod's own MACs ----

  datatype PodMacs = PodMacs(dst: Mac, src: Mac)

  /** The control plane writes a pod's own MACs, and every marked packet that the slow path
      delivers to the pod carries them. */
  predicate CarriesOwnMacs(macs: u32 -> PodMacs, e: Event) {
    match e
    case WriteIngress(pod, entry) => entry.dstMac == macs(pod).dst && entry.srcMac == macs(pod).src
    case AtInitIn(_, _, s) =>
      PlainOk(s) && BothMarks(Tos(Packet(s))) ==>
        var own := macs(Destination(Packet(s)));
        s[..6] == own.dst && s[6..12] == own.src
    case _ => true
  }

  ghost predicate AllCarryOwnMacs(macs: u32 -> PodMacs, run: seq<Event>) {
    forall e :: e in run ==> CarriesOwnMacs(macs, e)
  }

  ghost predicate OwnMacsOnly(macs: u32 -> PodMacs, m: Maps) {
    forall pod :: pod in m.ingress ==> m.ingress[pod].dstMac == macs(pod).dst && m.ingress[pod].srcMac == macs(pod).src
  }

  lemma OwnMacsStep(macs: u32 -> PodMacs, m: Maps, e: Event)
    requires OwnMacsOnly(macs, m) && CarriesOwnMacs(macs, e)
    ensures OwnMacsOnly(macs, Step(m, e))
  {
    match e
    case AtInitE(_, _, _, _) => InitEEffect(m, e);
    case AtInitIn(_, _, _) => InitInEffect(m, e);
    case _ =>
  }

  lemma {:induction false} PodsKeepTheirMacs(macs: u32 -> PodMacs, m0: Maps, run: seq<Event>)
    requires m0.ingress == map[] && AllCarryOwnMacs(macs, run)
    ensures OwnMacsOnly(macs, After(m0, run))
    decreases |run|
  {
    if run != [] {
      var prefix, e := run[..|run| - 1], run[|run| - 1];
      assert forall l :: l in prefix ==> l in run;
      PodsKeepTheirMacs(macs, m0, prefix);
      OwnMacsStep(macs, After(m0, prefix), e);
    }
  }

  /** End to end over a run of either side: what the pod gets from the fast path is the
      sender's frame from offset 12 on behind the MACs the slow path delivers with, on the
      interface that the control plane last wrote for the pod. */
  lemma DeliveredAsTheSlowPath(macs: u32 -> PodMacs, m0: Maps, run: seq<Event>, e: Event,
                               m0': Maps, run': seq<Event>, e': Event)
    requires m0.egress == map[] && m0.egressip == map[]
    requires e.AtMasq? && Fate(After(m0, run), e).Redirect?
    requires m0'.ingress == map[] && AllCarryOwnMacs(macs, run')
    requires e'.AtRestore? && e'.frame == Fate(After(m0, run), e).frame && Fate(After(m0', run'), e').Redirect?
    ensures PlainOk(e.frame)
    ensures var pod := Destination(Packet(e.frame));
            && LastWritten(run', pod).Some?
            && Fate(After(m0', run'), e') ==
               Redirect(LastWritten(run', pod).value.ifindex, macs(pod).dst + macs(pod).src + e.frame[12..])
  {
    var _ := DeliveryRoundTrip(m0, run, e, After(m0', run'), e');
    PodsKeepTheirMacs(macs, m0', run');
    PodsComeFromTheControlPlane(m0', run');
  }

  // ---- No forwarding without two-sided learning ----

  /** A marked packet of this side and flow reached its learner while the gate was open,
      and the entry was there or could be inserted. */
  predicate Records(m: Maps, e: Event, flow: Flow, side: Side) {
    match side
    case EgressSide =>
      && LearningPacket(e) && FlowOut(InnerPacket(e.frame)) == Some(flow)
      && Allows(m.control, e.now) && (flow in m.policy || e.h.policyInserted)
    case IngressSide =>
      && e.AtInitIn? && LearnsMacs(m, e.now, e.frame) && FlowIn(Packet(e.frame)) == Some(flow)
      && (flow in m.policy || e.h.policyInserted)
  }

  /** Event `i` recorded the flow and the flow's entry was not evicted afterwards. */
  ghost predicate RecordedAt(m0: Maps, run: seq<Event>, i: nat, flow: Flow, side: Side)
    requires i < |run|
  {
    Records(After(m0, run[..i]), run[i], flow, side) && forall j :: i < j < |run| ==> run[j] != EvictPolicy(flow)
  }

  ghost predicate Recorded(m0: Maps, run: seq<Event>, flow: Flow, side: Side) {
    exists i :: 0 <= i < |run| && RecordedAt(m0, run, i, flow, side)
  }

  predicate Bit(m: Maps, flow: Flow, side: Side) {
    flow in m.policy && (if side.EgressSide? then m.policy[flow].egress else m.policy[flow].ingress)
  }

  lemma BitStepOut(m: Maps, e: Event, flow: Flow, side: Side)
    requires e.AtInitE?
    ensures Bit(Step(m, e), flow, side) <==> Records(m, e, flow, side) || Bit(m, flow, side)
  {
    if !Allows(m.control, e.now) || !LearnsEgress(e.frame) {
      assert Step(m, e) == m;
    } else {
      assert Step(m, e).policy ==
             Learned(m.policy, FlowOut(InnerPacket(e.frame)).value, EgressSide, e.h.policyInserted);
    }
  }

  lemma BitStepIn(m: Maps, e: Event, flow: Flow, side: Side)
    requires e.AtInitIn?
    ensures Bit(Step(m, e), flow, side) <==> Records(m, e, flow, side) || Bit(m, flow, side)
  {
    if !LearnsMacs(m, e.now, e.frame) || FlowIn(Packet(e.frame)).None? {
      assert Step(m, e).policy == m.policy;
    } else {
      assert Step(m, e).policy == Learned(m.policy, FlowIn(Packet(e.frame)).value, IngressSide, e.h.policyInserted);
    }
  }

  lemma BitStep(m: Maps, e: Event, flow: Flow, side: Side)
    ensures Bit(Step(m, e), flow, side) <==>
            Records(m, e, flow, side) || (Bit(m, flow, side) && e != EvictPolicy(flow))
  {
    match e
    case AtInitE(_, _, _, _) => BitStepOut(m, e, flow, side);
    case AtInitIn(_, _, _) => BitStepIn(m, e, flow, side);
    case _ =>
  }

  /** A ready bit is set exactly when its side recorded the flow since its last eviction. */
  lemma {:induction false} ReadyBitsAreHistory(m0: Maps, run: seq<Event>, flow: Flow, side: Side)
    requires m0.policy == map[]
    ensures Bit(After(m0, run), flow, side) <==> Recorded(m0, run, flow, side)
    decreases |run|
  {
    if run != [] {
      var n := |run| - 1;
      ReadyBitsAreHistory(m0, run[..n], flow, side);
      BitStep(After(m0, run[..n]), run[n], flow, side);
      RecordedStep(m0, run, flow, side);
    }
  }

  lemma RecordedStep(m0: Maps, run: seq<Event>, flow: Flow, side: Side)
    requires run != []
    ensures Recorded(m0, run, flow, side) <==>
            || RecordedAt(m0, run, |run| - 1, flow, side)
            || (Recorded(m0, run[..|run| - 1], flow, side) && run[|run| - 1] != EvictPolicy(flow))
  {
    var n := |run| - 1;
    forall i | 0 <= i < n
      ensures RecordedAt(m0, run, i, flow, side) <==>
              RecordedAt(m0, run[..n], i, flow, side) && run[n] != EvictPolicy(flow)
    {
      RecordedAtPrefix(m0, run, i, flow, side);
    }
  }

  lemma RecordedAtPrefix(m0: Maps, run: seq<Event>, i: nat, flow: Flow, side: Side)
    requires i < |run| - 1
    ensures RecordedAt(m0, run, i, flow, side) <==>
            RecordedAt(m0, run[..|run| - 1], i, flow, side) && run[|run| - 1] != EvictPolicy(flow)
  {
    var prefix := run[..|run| - 1];
    assert prefix[..i] == run[..i] && prefix[i] == run[i];
    assert forall j :: i < j < |prefix| ==> prefix[j] == run[j];
  }

  /** The flow a forwarding program looked up. */
  function ForwardedFlow(e: Event): Option<Flow> {
    if e.AtMasq? && PlainOk(e.frame) then FlowOut(Packet(e.frame))
    else if e.AtRestore? && TunnelOk(e.frame) then FlowIn(InnerPacket(e.frame))
    else None
  }

  /** In every run that starts with no flow known, a packet is redirected only if, since
      its flow's last eviction, each side's learner recorded a marked packet of the flow. */
  lemma ForwardingNeedsBothSides(m0: Maps, run: seq<Event>, e: Event)
    requires m0.policy == map[]
    requires IsPacket(e) && Fate(After(m0, run), e).Redirect?
    ensures ForwardedFlow(e).Some?
    ensures Recorded(m0, run, ForwardedFlow(e).value, EgressSide)
    ensures Recorded(m0, run, ForwardedFlow(e).value, IngressSide)
  {
    var m := After(m0, run);
    assert ForwardedFlow(e).Some? && FlowReady(m, ForwardedFlow(e).value) by {
      if e.AtMasq? {
        assert MasqLookup(m, e.ifindex, e.now, e.frame).Hit?;
      } else if e.AtRestore? {
        assert RestoreLookup(m, e.ifindex, e.now, e.frame).Hit?;
      }
    }
    ReadyBitsAreHistory(m0, run, ForwardedFlow(e).value, EgressSide);
    ReadyBitsAreHistory(m0, run, ForwardedFlow(e).value, IngressSide);
  }

  // ---- What is learned stays, and a connection learned on both sides is forwarded ----

  ghost predicate NoEviction(run: seq<Event>) {
    forall e :: e in run ==> !(e.EvictIngress? || e.EvictEgressIp? || e.EvictEgress? || e.EvictPolicy?)
  }

  /** Entries of `m` are in `m'`: headers and routes unchanged, ready bits at least as set. */
  ghost predicate Retained(m: Maps, m': Maps) {
    && Within(m.egress, m'.egress) && Within(m.egressip, m'.egressip)
    && (forall pod :: pod in m.ingress ==> pod in m'.ingress)
    && (forall flow, side :: Bit(m, flow, side) ==> Bit(m', flow, side))
  }

  lemma BitsRetained(m: Maps, e: Event)
    requires NoEviction([e])
    ensures forall flow, side :: Bit(m, flow, side) ==> Bit(Step(m, e), flow, side)
  {
    assert e in [e];
    forall flow, side | Bit(m, flow, side)
      ensures Bit(Step(m, e), flow, side)
    {
      BitStep(m, e, flow, side);
    }
  }

  lemma RetainedStep(m: Maps, e: Event)
    requires NoEviction([e])
    ensures Retained(m, Step(m, e))
  {
    BitsRetained(m, e);
    assert e in [e];
    match e
    case AtInitE(_, _, _, _) => InitEEffect(m, e);
    case AtInitIn(_, _, _) => InitInEffect(m, e);
    case _ =>
  }

  /** The first header and the first route learned win until they are evicted, whatever
      later packets carry, and ready bits are never taken back. */
  lemma {:induction false} LearnedEntriesStay(m: Maps, run: seq<Event>)
    requires NoEviction(run)
    ensures Retained(m, After(m, run))
    decreases |run|
  {
    if run != [] {
      var prefix, e := run[..|run| - 1], run[|run| - 1];
      assert run == prefix + [e];
      LearnedEntriesStay(m, prefix);
      RetainedStep(After(m, prefix), e);
    }
  }

  /** A marked tunnel packet of the flow at `tc_init_e`, fully recorded. */
  predicate TeachesAll(m: Maps, e: Event, flow: Flow) {
    && Records(m, e, flow, EgressSide) && e.h.egressInserted && e.h.egressipInserted
    && (Destination(InnerPacket(e.frame)) in m.egressip ==>
          m.egressip[Destination(InnerPacket(e.frame))] == U32(e.frame, 30))
  }

  /** The cache does its job: after one outgoing packet and one incoming reply of a
      connection, and with no eviction since, `tc_masq` redirects every packet of the flow
      the gate, the pod's own entry and the helpers let through. */
  lemma LearnedConnectionIsForwarded(m: Maps, e1: Event, between: seq<Event>, e2: Event, later: seq<Event>, e: Event,
                                     flow: Flow)
    requires NoEviction(between) && NoEviction(later)
    requires TeachesAll(m, e1, flow)
    requires Records(After(Step(m, e1), between), e2, flow, IngressSide)
    requires var now := After(Step(After(Step(m, e1), between), e2), later);
             && e.AtMasq? && PlainOk(e.frame) && FlowOut(Packet(e.frame)) == Some(flow)
             && Allows(now.control, e.now) && PodReady(now, Source(Packet(e.frame)))
             && (U32(e1.frame, 30) in now.egress ==> TargetValid(now.egress[U32(e1.frame, 30)].ifindex, e.ifindex))
             && e.h.roomAdjusted && e.h.udpLengthStored && e.h.checksumReplaced && e.h.ipLengthStored
             && e.h.portStored && e.h.redirected
    ensures Fate(After(Step(After(Step(m, e1), between), e2), later), e).Redirect?
  {
    var m1 := Step(m, e1);
    var m2 := After(m1, between);
    var m3 := Step(m2, e2);
    var m4 := After(m3, later);
    var pod, node := Destination(InnerPacket(e1.frame)), U32(e1.frame, 30);
    assert pod in m1.egressip && m1.egressip[pod] == node && node in m1.egress;
    assert Destination(Packet(e.frame)) == flow.remoteAddr == pod;
    BitStep(m, e1, flow, EgressSide);
    LearnedEntriesStay(m1, between);
    BitStep(m2, e2, flow, IngressSide);
    RetainedStep(m2, e2);
    LearnedEntriesStay(m3, later);
    assert Bit(m4, flow, EgressSide) && Bit(m4, flow, IngressSide);
    AllInPlaceIsForwarded(m4, e, flow, node);
  }

  /** What `tc_masq` needs to redirect a packet. */
  lemma AllInPlaceIsForwarded(m: Maps, e: Event, flow: Flow, node: u32)
    requires e.AtMasq? && PlainOk(e.frame) && FlowOut(Packet(e.frame)) == Some(flow)
    requires Allows(m.control, e.now) && PodReady(m, Source(Packet(e.frame)))
    requires Bit(m, flow, EgressSide) && Bit(m, flow, IngressSide)
    requires Destination(Packet(e.frame)) in m.egressip && m.egressip[Destination(Packet(e.frame))] == node
    requires node in m.egress && TargetValid(m.egress[node].ifindex, e.ifindex)
    requires e.h.roomAdjusted && e.h.udpLengthStored && e.h.checksumReplaced && e.h.ipLengthStored
             && e.h.portStored && e.h.redirected
    ensures Fate(m, e).Redirect?
  {
    assert MasqLookup(m, e.ifindex, e.now, e.frame) == Hit(m.egress[node]);
  }

  // ---- The restore target comes from the control plane ----

  /** The last entry the control plane wrote for a pod. */
  function LastWritten(run: seq<Event>, pod: u32): Option<Ingress>
    decreases |run|
  {
    if run == [] then None
    else if run[|run| - 1].WriteIngress? && run[|run| - 1].pod == pod then Some(run[|run| - 1].entry)
    else LastWritten(run[..|run| - 1], pod)
  }

  /** Packets and evictions never add a pod or change an interface. */
  lemma PodsStep(m: Maps, e: Event)
    ensures forall pod :: pod in Step(m, e).ingress ==>
              if e.WriteIngress? && e.pod == pod then Step(m, e).ingress[pod] == e.entry
              else pod in m.ingress && Step(m, e).ingress[pod].ifindex == m.ingress[pod].ifindex
  {
    match e
    case AtInitE(_, _, _, _) => InitEEffect(m, e);
    case AtInitIn(_, _, _) => InitInEffect(m, e);
    case _ =>
  }

  lemma {:induction false} PodsComeFromTheControlPlane(m0: Maps, run: seq<Event>)
    requires m0.ingress == map[]
    ensures forall pod :: pod in After(m0, run).ingress ==>
              LastWritten(run, pod).Some? && After(m0, run).ingress[pod].ifindex == LastWritten(run, pod).value.ifindex
    decreases |run|
  {
    if run != [] {
      PodsComeFromTheControlPlane(m0, run[..|run| - 1]);
      PodsStep(After(m0, run[..|run| - 1]), run[|run| - 1]);
    }
  }

  lemma RestoreTargetIsLastWritten(m0: Maps, run: seq<Event>, e: Event)
    requires m0.ingress == map[]
    requires e.AtRestore? && Fate(After(m0, run), e).Redirect?
    ensures TunnelOk(e.frame)
    ensures var written := LastWritten(run, Destination(InnerPacket(e.frame)));
            written.Some? && Fate(After(m0, run), e).target == written.value.ifindex != e.ifindex
  {
    PodsComeFromTheControlPlane(m0, run);
    assert RestoreLookup(After(m0, run), e.ifindex, e.now, e.frame).Hit?;
  }

  // ---- Gate exclusion ----

  /** From time `t` on the gate is shut. */
  ghost predicate ShutFrom(m: Maps, t: u64) {
    forall now: u64 :: t <= now ==> !Allows(m.control, now)
  }

  lemma DisabledIsShut(m: Maps)
    requires m.control.Some? ==> m.control.value.enabled != 1
    ensures ShutFrom(m, 0)
  {
  }

  lemma ExpiredIsShut(m: Maps, t: u64)
    requires m.control.Some? && m.control.value.heartbeat as int + m.control.value.timeout as int < t as int
    ensures ShutFrom(m, t)
  {
    forall now: u64 | t <= now
      ensures !Allows(m.control, now)
    {
      GateIsTheHeartbeatWindow(m.control.value, now);
    }
  }

  /** No event of the run opens the gate again, and its packets come at `t` or later. */
  ghost predicate NoPublish(run: seq<Event>, t: u64) {
    forall i :: 0 <= i < |run| ==>
      && (run[i].WriteControl? ==> run[i].control.enabled != 1)
      && (IsPacket(run[i]) ==> t <= run[i].now)
  }

  /** A packet at a shut gate passes unchanged and changes no map. */
  lemma ShutGateIsInert(m: Maps, e: Event)
    requires IsPacket(e) && !Allows(m.control, e.now)
    ensures Fate(m, e) == Pass(e.frame) && Step(m, e) == m
  {
    match e
    case AtInitE(_, _, _, _) =>
    case AtInitIn(_, _, _) =>
    case AtMasq(_, _, _, _, _) =>
    case AtRestore(_, _, _, _) =>
  }

  /** What the maps may become while the gate is shut: learned entries can only be
      evicted, and a pod entry is the control plane's last write or an old entry. */
  ghost predicate OnlyControlPlane(m0: Maps, run: seq<Event>, m: Maps) {
    && Within(m.policy, m0.policy) && Within(m.egress, m0.egress) && Within(m.egressip, m0.egressip)
    && forall pod :: pod in m.ingress ==>
         || LastWritten(run, pod) == Some(m.ingress[pod])
         || (LastWritten(run, pod).None? && pod in m0.ingress && m.ingress[pod] == m0.ingress[pod])
  }

  lemma ShutStep(m0: Maps, run: seq<Event>, t: u64)
    requires run != [] && NoPublish(run, t)
    requires var prefix := run[..|run| - 1];
             ShutFrom(After(m0, prefix), t) && OnlyControlPlane(m0, prefix, After(m0, prefix))
    ensures ShutFrom(After(m0, run), t) && OnlyControlPlane(m0, run, After(m0, run))
  {
    var prefix, e := run[..|run| - 1], run[|run| - 1];
    var m := After(m0, prefix);
    if IsPacket(e) {
      assert !Allows(m.control, e.now);
      ShutGateIsInert(m, e);
      assert After(m0, run) == m;
    } else {
      UnpacketedStep(m0, prefix, m, e, t);
      assert prefix + [e] == run;
    }
  }

  lemma UnpacketedStep(m0: Maps, prefix: seq<Event>, m: Maps, e: Event, t: u64)
    requires !IsPacket(e) && (e.WriteControl? ==> e.control.enabled != 1)
    requires ShutFrom(m, t) && OnlyControlPlane(m0, prefix, m)
    ensures ShutFrom(Step(m, e), t) && OnlyControlPlane(m0, prefix + [e], Step(m, e))
  {
    assert (prefix + [e])[..|prefix|] == prefix;
    match e
    case EvictIngress(_) =>
    case EvictEgressIp(_) =>
    case EvictEgress(_) =>
    case EvictPolicy(_) =>
    case EvictDevice(_) =>
    case WriteIngress(_, _) =>
    case WriteDevice(_, _) =>
    case WriteControl(_) => DisabledIsShut(Step(m, e));
  }

  lemma {:induction false} StaysShut(m0: Maps, run: seq<Event>, t: u64)
    requires ShutFrom(m0, t) && NoPublish(run, t)
    ensures ShutFrom(After(m0, run), t) && OnlyControlPlane(m0, run, After(m0, run))
    decreases |run|
  {
    if run != [] {
      NoPublishPrefix(run, |run| - 1, t);
      StaysShut(m0, run[..|run| - 1], t);
      ShutStep(m0, run, t);
    }
  }

  lemma NoPublishPrefix(run: seq<Event>, n: nat, t: u64)
    requires n <= |run| && NoPublish(run, t)
    ensures NoPublish(run[..n], t)
  {
    assert forall i :: 0 <= i < n ==> run[..n][i] == run[i];
  }

  /** The packet passes unchanged and no map changes. */
  predicate Inert(m: Maps, e: Event)
    requires IsPacket(e)
  {
    Fate(m, e) == Pass(e.frame) && Step(m, e) == m
  }

  /** Between a completed disable, or the expiry of the heartbeat, and the next publish,
      no packet changes and no packet changes a map, in any interleaving. */
  lemma ShutGateExcludesPackets(m0: Maps, run: seq<Event>, t: u64)
    requires ShutFrom(m0, t) && NoPublish(run, t)
    ensures OnlyControlPlane(m0, run, After(m0, run))
    ensures forall i :: 0 <= i < |run| && IsPacket(run[i]) ==> Inert(After(m0, run[..i]), run[i])
  {
    StaysShut(m0, run, t);
    forall i | 0 <= i < |run| && IsPacket(run[i])
      ensures Inert(After(m0, run[..i]), run[i])
    {
      NoPublishPrefix(run, i, t);
      StaysShut(m0, run[..i], t);
      assert t <= run[i].now;
      ShutGateIsInert(After(m0, run[..i]), run[i]);
    }
  }
}
