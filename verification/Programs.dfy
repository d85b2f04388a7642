/** What each packet program does to one packet and to the maps, as functions of the maps,
    the packet and the outcomes of the BPF helpers it calls. */
module Programs {
  import opened Bytes
  import opened Wrappers
  import opened Headers
  import opened Caches
  import Checksum

  /** The outcome of every helper call a program may make; the kernel decides. A helper
      that fails leaves packet and map as they were. */
  datatype Helpers = Helpers(tosStored: bool, roomAdjusted: bool, udpLengthStored: bool,
                             checksumReplaced: bool, ipLengthStored: bool, portStored: bool,
                             redirected: bool, policyInserted: bool, egressInserted: bool,
                             egressipInserted: bool)

  /** TC_ACT_OK hands the packet on, TC_ACT_REDIRECT sends it out of an interface,
      TC_ACT_SHOT discards it. */
  datatype Outcome = Pass(frame: Frame) | Redirect(target: u32, frame: Frame) | Drop

  const OUTER_TOS := 15
  const INNER_TOS := 65

  function MissMarked(s: Frame, off: nat, h: Helpers): Frame
    requires off < |s|
  {
    if h.tosStored then s[off := MarkMiss(s[off])] else s
  }

  function Unmarked(s: Frame, off: nat, h: Helpers): Frame
    requires off < |s|
  {
    if h.tosStored then s[off := ClearMarks(s[off])] else s
  }

  datatype Side = EgressSide | IngressSide

  /** Insert the flow with this side's bit, or set the bit of the entry already there. */
  function Learned(policy: map<Flow, Ready>, flow: Flow, side: Side, inserted: bool): map<Flow, Ready> {
    if flow in policy then policy[flow := WithBit(policy[flow], side)]
    else if inserted then policy[flow := WithBit(Ready(false, false), side)]
    else policy
  }

  function WithBit(r: Ready, side: Side): Ready {
    if side.EgressSide? then r.(egress := true) else r.(ingress := true)
  }

  /** BPF_NOEXIST: an entry that exists is left alone. */
  function InsertedOnce<K, V>(m: map<K, V>, k: K, v: V, inserted: bool): map<K, V> {
    if k !in m && inserted then m[k := v] else m
  }

  /** `tc_init_e` learns from marked tunnel packets and from nothing else. */
  predicate LearnsEgress(s: Frame) {
    TunnelOk(s) && BothMarks(Tos(InnerPacket(s))) && FlowOut(InnerPacket(s)).Some?
  }

  function InitE(m: Maps, ifindex: u32, now: u64, h: Helpers, s: Frame): (Maps, Outcome) {
    if !Allows(m.control, now) || !LearnsEgress(s) then (m, Pass(s))
    else
      var node, pod := U32(s, 30), Destination(InnerPacket(s));
      (m.(policy := Learned(m.policy, FlowOut(InnerPacket(s)).value, EgressSide, h.policyInserted),
          egress := InsertedOnce(m.egress, node, Egress(s[..OUTER_LEN], ifindex), h.egressInserted),
          egressip := InsertedOnce(m.egressip, pod, node, h.egressipInserted)),
       Pass(Unmarked(s, INNER_TOS, h)))
  }

  /** `tc_init_in` refreshes the MACs of a known pod before it looks at the flow. */
  predicate LearnsMacs(m: Maps, now: u64, s: Frame) {
    && Allows(m.control, now) && PlainOk(s) && BothMarks(Tos(Packet(s)))
    && Destination(Packet(s)) in m.ingress
  }

  function InitIn(m: Maps, now: u64, h: Helpers, s: Frame): (Maps, Outcome) {
    if !LearnsMacs(m, now, s) then (m, Pass(s))
    else
      var pod := Destination(Packet(s));
      var learned := m.(ingress := m.ingress[pod := m.ingress[pod].(dstMac := s[..6], srcMac := s[6..12])]);
      match FlowIn(Packet(s))
      case None => (learned, Pass(s))
      case Some(flow) =>
        (learned.(policy := Learned(m.policy, flow, IngressSide, h.policyInserted)),
         Pass(Unmarked(s, OUTER_TOS, h)))
  }

  predicate FlowReady(m: Maps, flow: Flow) {
    flow in m.policy && m.policy[flow].ingress && m.policy[flow].egress
  }

  predicate PodReady(m: Maps, pod: u32) {
    pod in m.ingress && m.ingress[pod].srcMac[0] != 0
  }

  /** What a lookup decides before the packet is touched. */
  datatype Decision<T> = Leave | Miss | Hit(entry: T)

  function MasqLookup(m: Maps, ifindex: u32, now: u64, s: Frame): Decision<Egress> {
    if !Allows(m.control, now) || !PlainOk(s) then Leave
    else
      var q := Packet(s);
      match FlowOut(q)
      case None => Leave
      case Some(flow) =>
        if !FlowReady(m, flow) || Destination(q) !in m.egressip then Miss
        else
          var node := m.egressip[Destination(q)];
          if node !in m.egress then Miss
          else if !PodReady(m, Source(q)) || !TargetValid(m.egress[node].ifindex, ifindex) then Leave
          else Hit(m.egress[node])
  }

  /** `hash ^= hash << 16`, scaled into the dynamic port range. */
  function SourcePort(hash: bv32): (port: nat)
    ensures 49152 <= port <= 65534
  {
    (hash ^ (hash << 16)) as int * (65535 - 49152) / TWO_TO_THE_32 + 49152
  }

  /** The mixing loses nothing of the hash, and the ports share the mixed values evenly, in
      order: each port stands for one stretch of 2^32 / 16383 of them. */
  lemma PortsShareTheHashes(hash: bv32)
    ensures var mixed := hash ^ (hash << 16);
            && mixed ^ (mixed << 16) == hash
            && (SourcePort(hash) - 49152) * 0x1_0000_0000 <= mixed as int * 16383
            && mixed as int * 16383 < (SourcePort(hash) - 49151) * 0x1_0000_0000
  {
  }

  /** `set_new_length_outerhdr` when every helper succeeds: UDP length, checksum, total
      length. `n` is the frame length; the fields truncate to 16 bits. */
  function LengthsPatched(s: Frame, n: nat): (f: Frame)
    requires ETH_HLEN + IP_LEN + UDP_LEN <= |s| && ETH_HLEN + IP_LEN + UDP_LEN <= n
    ensures |f| == |s|
  {
    var total := (n - ETH_HLEN) % TWO_TO_THE_16;
    var sized := Write(s, 38, Put16((n - ETH_HLEN - IP_LEN) % TWO_TO_THE_16));
    var summed := Write(sized, 24, Put16(Checksum.Replace(U16(sized, 24), U16(sized, 16), total)));
    Write(summed, 16, Put16(total))
  }

  /** The learned outer header in front of the packet, with its lengths, checksum and UDP
      source port patched. */
  function Encapsulated(header: Header, s: Frame, port: nat): (f: Frame)
    requires ETH_HLEN <= |s| && port < TWO_TO_THE_16
    ensures |f| == |s| + 50
  {
    Write(LengthsPatched(header + s[ETH_HLEN..], |s| + 50), 34, Put16(port))
  }

  function Masq(m: Maps, ifindex: u32, now: u64, hash: bv32, h: Helpers, s: Frame): Outcome {
    match MasqLookup(m, ifindex, now, s)
    case Leave => Pass(s)
    case Miss => Pass(MissMarked(s, OUTER_TOS, h))
    case Hit(entry) =>
      if !h.roomAdjusted then Pass(s)
      else if h.udpLengthStored && h.checksumReplaced && h.ipLengthStored && h.portStored && h.redirected then
        Redirect(entry.ifindex, Encapsulated(entry.header, s, SourcePort(hash)))
      else Drop
  }

  function RestoreLookup(m: Maps, ifindex: u32, now: u64, s: Frame): Decision<Ingress> {
    if !Allows(m.control, now) || !TunnelOk(s) then Leave
    else if ifindex !in m.dev || s[..6] != m.dev[ifindex].mac || U32(s, 30) != m.dev[ifindex].ipv4 then Leave
    else
      var q := InnerPacket(s);
      match FlowIn(q)
      case None => Leave
      case Some(flow) =>
        if !FlowReady(m, flow) || !PodReady(m, Destination(q)) then Miss
        else if Source(q) !in m.egressip || !TargetValid(m.ingress[Destination(q)].ifindex, ifindex) then Leave
        else Hit(m.ingress[Destination(q)])
  }

  /** Fifty bytes are cut out behind the Ethernet header and the MACs are replaced. */
  function Decapsulated(entry: Ingress, s: Frame): (f: Frame)
    requires OUTER_LEN <= |s|
    ensures |f| == |s| - 50
  {
    entry.dstMac + entry.srcMac + s[12..14] + s[OUTER_LEN..]
  }

  function Restore(m: Maps, ifindex: u32, now: u64, h: Helpers, s: Frame): Outcome {
    match RestoreLookup(m, ifindex, now, s)
    case Leave => Pass(s)
    case Miss => Pass(MissMarked(s, INNER_TOS, h))
    case Hit(entry) =>
      if !h.roomAdjusted then Pass(s)
      else if h.redirected then Redirect(entry.ifindex, Decapsulated(entry, s))
      else Drop
  }
}
