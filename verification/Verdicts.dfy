/** The verdicts of the four programs as flat tables over the bytes of the packet and the map
    entries those bytes name. */
module Verdicts {
  import Bits
  import opened Bytes
  import opened Headers
  import opened Caches
  import opened Programs
  import opened Encapsulation

  /** `f` is `s` with at most the byte at `off` replaced. */
  predicate OnlyAt(f: Frame, s: Frame, off: nat) {
    |f| == |s| && forall k :: 0 <= k < |s| && k != off ==> f[k] == s[k]
  }

  /** Handed on with the miss bit 0x04 set at `off`, unless the store fails. */
  predicate PassedMarked(o: Outcome, s: Frame, off: nat, stored: bool)
    requires off < |s|
  {
    && o.Pass? && OnlyAt(o.frame, s, off)
    && o.frame[off] as int == if stored then (Bits.Of(s[off]) | 0x04) as int else s[off] as int
  }

  /** Handed on without the bits 0x0c at `off`, unless the store fails. */
  predicate PassedCleared(o: Outcome, s: Frame, off: nat, stored: bool)
    requires off < |s|
  {
    && o.Pass? && OnlyAt(o.frame, s, off)
    && o.frame[off] as int == if stored then (Bits.Of(s[off]) & 0xf3) as int else s[off] as int
  }

  /** Both sides have learned the flow. */
  predicate BothReady(m: Maps, flow: Flow) {
    flow in m.policy && m.policy[flow] == Ready(true, true)
  }

  /** The pod has an entry whose source MAC does not start with a zero byte. */
  predicate MacKnown(m: Maps, pod: u32) {
    pod in m.ingress && m.ingress[pod].srcMac[0] != 0
  }

  // ---- tc_masq ----

  /** The packets `tc_masq` takes a decision about. */
  predicate MasqConsiders(m: Maps, now: u64, s: Frame) {
    Allows(m.control, now) && PlainOk(s) && FlowOut(s[14..]).Some?
  }

  /** The flow is ready in both directions, its destination has a route, and the route a
      header. */
  predicate MasqKnows(m: Maps, s: Frame)
    requires PlainOk(s) && FlowOut(s[14..]).Some?
  {
    && BothReady(m, FlowOut(s[14..]).value)
    && U32(s, 30) in m.egressip
    && m.egressip[U32(s, 30)] in m.egress
  }

  /** The sending pod is ready, and the header leads out of another interface. */
  predicate MasqMayRedirect(m: Maps, ifindex: u32, s: Frame)
    requires PlainOk(s) && FlowOut(s[14..]).Some? && MasqKnows(m, s)
  {
    var entry := m.egress[m.egressip[U32(s, 30)]];
    MacKnown(m, U32(s, 26)) && entry.ifindex != 0 && entry.ifindex != ifindex
  }

  lemma MasqDecides(m: Maps, ifindex: u32, now: u64, s: Frame)
    ensures MasqLookup(m, ifindex, now, s) ==
            if !MasqConsiders(m, now, s) then Leave
            else if !MasqKnows(m, s) then Miss
            else if !MasqMayRedirect(m, ifindex, s) then Leave
            else Hit(m.egress[m.egressip[U32(s, 30)]])
  {
    if PlainOk(s) {
      var q := Packet(s);
      assert U32(s, 26) == Source(q) && U32(s, 30) == Destination(q);
    }
  }

  /** A packet that misses leaves with the miss bit in byte 15 and otherwise as it came. One
      that hits is redirected whole if every helper succeeds, dropped if one fails after the
      room was made, and otherwise handed on unchanged, as is every other packet. */
  lemma MasqVerdict(m: Maps, ifindex: u32, now: u64, hash: bv32, h: Helpers, s: Frame)
    ensures var o := Masq(m, ifindex, now, hash, h, s);
            if !MasqConsiders(m, now, s) then o == Pass(s)
            else if !MasqKnows(m, s) then PassedMarked(o, s, 15, h.tosStored)
            else if !MasqMayRedirect(m, ifindex, s) || !h.roomAdjusted then o == Pass(s)
            else if !(h.udpLengthStored && h.checksumReplaced && h.ipLengthStored && h.portStored && h.redirected)
            then o == Drop
            else
              var entry := m.egress[m.egressip[U32(s, 30)]];
              && o.Redirect?
              && o.target == entry.ifindex
              && Built(entry.header, s, SourcePort(hash), o.frame)
  {
    MasqDecides(m, ifindex, now, s);
    if PlainOk(s) {
      MarkedByte(s[15]);
      match MasqLookup(m, ifindex, now, s)
      case Leave =>
      case Miss =>
      case Hit(entry) => EncapsulatedBytes(entry.header, s, SourcePort(hash));
    }
  }

  // ---- tc_restore ----

  /** The packets `tc_restore` takes a decision about: tunnel frames for this device. */
  predicate RestoreConsiders(m: Maps, ifindex: u32, now: u64, s: Frame) {
    && Allows(m.control, now) && TunnelOk(s) && FlowIn(s[64..]).Some?
    && ifindex in m.dev && m.dev[ifindex] == Device(U32(s, 30), s[..6])
  }

  predicate RestoreKnows(m: Maps, s: Frame)
    requires TunnelOk(s) && FlowIn(s[64..]).Some?
  {
    BothReady(m, FlowIn(s[64..]).value) && MacKnown(m, U32(s, 80))
  }

  /** The way back is known, and the pod is behind another interface. */
  predicate RestoreMayRedirect(m: Maps, ifindex: u32, s: Frame)
    requires TunnelOk(s) && FlowIn(s[64..]).Some? && RestoreKnows(m, s)
  {
    var entry := m.ingress[U32(s, 80)];
    U32(s, 76) in m.egressip && entry.ifindex != 0 && entry.ifindex != ifindex
  }

  lemma RestoreDecides(m: Maps, ifindex: u32, now: u64, s: Frame)
    ensures RestoreLookup(m, ifindex, now, s) ==
            if !RestoreConsiders(m, ifindex, now, s) then Leave
            else if !RestoreKnows(m, s) then Miss
            else if !RestoreMayRedirect(m, ifindex, s) then Leave
            else Hit(m.ingress[U32(s, 80)])
  {
    if TunnelOk(s) {
      var q := InnerPacket(s);
      assert U32(s, 76) == Source(q) && U32(s, 80) == Destination(q);
    }
  }

  /** The same for the way in: the miss bit goes into byte 65, the TOS byte of the inner
      packet, and a redirected frame has lost its first 64 bytes for the pod's two MACs and
      the type of the outer Ethernet header. */
  lemma RestoreVerdict(m: Maps, ifindex: u32, now: u64, h: Helpers, s: Frame)
    ensures var o := Restore(m, ifindex, now, h, s);
            if !RestoreConsiders(m, ifindex, now, s) then o == Pass(s)
            else if !RestoreKnows(m, s) then PassedMarked(o, s, 65, h.tosStored)
            else if !RestoreMayRedirect(m, ifindex, s) || !h.roomAdjusted then o == Pass(s)
            else if !h.redirected then o == Drop
            else
              var entry := m.ingress[U32(s, 80)];
              && o.Redirect?
              && o.target == entry.ifindex
              && o.frame == entry.dstMac + entry.srcMac + s[12..14] + s[64..]
  {
    RestoreDecides(m, ifindex, now, s);
    if TunnelOk(s) {
      MarkedByte(s[65]);
    }
  }

  // ---- tc_init_e and tc_init_in ----

  /** `after` is `before` with the bit of one side set in the flow's entry, or with a new
      entry that has this bit only, if the insertion succeeds. */
  predicate BitSet(after: map<Flow, Ready>, before: map<Flow, Ready>, flow: Flow, side: Side, inserted: bool) {
    && after.Keys == before.Keys + (if inserted then {flow} else {})
    && (forall f :: f in before && f != flow ==> after[f] == before[f])
    && (flow in after ==>
          after[flow] == (if side.EgressSide? then Ready(flow in before && before[flow].ingress, true)
                          else Ready(true, flow in before && before[flow].egress)))
  }

  /** `after` is `before`, with `v` at `k` if there was nothing and the insertion succeeds. */
  predicate AddedOnce<K, V(==)>(after: map<K, V>, before: map<K, V>, k: K, v: V, inserted: bool) {
    after == if k in before || !inserted then before else before[k := v]
  }

  /** The outgoing learner takes a tunnel frame with both bits 0x0c in byte 65 and a flow. It
      records the egress bit of the flow, the first 64 bytes and the interface under the outer
      destination, and the route of the inner destination, each only if absent, and clears
      both bits. Every other packet passes unchanged and teaches nothing. */
  lemma InitEVerdict(m: Maps, ifindex: u32, now: u64, h: Helpers, s: Frame)
    ensures var (after, o) := InitE(m, ifindex, now, h, s);
            if !Allows(m.control, now) || !TunnelOk(s) || Bits.Of(s[65]) & 0x0c != 0x0c || FlowOut(s[64..]).None?
            then after == m && o == Pass(s)
            else
              && after.ingress == m.ingress && after.dev == m.dev && after.control == m.control
              && BitSet(after.policy, m.policy, FlowOut(s[64..]).value, EgressSide, h.policyInserted)
              && AddedOnce(after.egress, m.egress, U32(s, 30), Egress(s[..64], ifindex), h.egressInserted)
              && AddedOnce(after.egressip, m.egressip, U32(s, 80), U32(s, 30), h.egressipInserted)
              && PassedCleared(o, s, 65, h.tosStored)
  {
    if TunnelOk(s) {
      var q := InnerPacket(s);
      assert U32(s, 80) == Destination(q) && Tos(q) == s[65];
      MarkedBoth(s[65]);
      ClearedByte(s[65]);
    }
  }

  /** The incoming learner takes a plain frame with both bits 0x0c in byte 15 for a pod that
      has an entry. It puts the frame's MACs into the entry and keeps its interface; if the
      packet also has a flow, it records the ingress bit and clears both bits. */
  lemma InitInVerdict(m: Maps, now: u64, h: Helpers, s: Frame)
    ensures var (after, o) := InitIn(m, now, h, s);
            if !Allows(m.control, now) || !PlainOk(s) || Bits.Of(s[15]) & 0x0c != 0x0c || U32(s, 30) !in m.ingress
            then after == m && o == Pass(s)
            else
              && after.egressip == m.egressip && after.egress == m.egress
              && after.dev == m.dev && after.control == m.control
              && var ifindex := m.ingress[U32(s, 30)].ifindex;
              && after.ingress == m.ingress[U32(s, 30) := Ingress(ifindex, s[..6], s[6..12])]
              && if FlowIn(s[14..]).None? then after.policy == m.policy && o == Pass(s)
                 else
                   && BitSet(after.policy, m.policy, FlowIn(s[14..]).value, IngressSide, h.policyInserted)
                   && PassedCleared(o, s, 15, h.tosStored)
  {
    if PlainOk(s) {
      var q := Packet(s);
      assert U32(s, 30) == Destination(q) && Tos(q) == s[15];
      MarkedBoth(s[15]);
      ClearedByte(s[15]);
    }
  }
}
