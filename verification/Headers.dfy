/** Header parsing and flow keys of the packet programs.

    The C parsers walk pointers against `data_end`; here a frame is one linear byte
    sequence, a header is an offset into it, and `data_end` is its length. */
module Headers {
  import opened Bytes
  import opened Wrappers

  const ETH_HLEN := 14
  const IP_LEN := 20
  const UDP_LEN := 8
  const VXLAN_LEN := 8
  const OUTER_LEN := 64          // outer Ethernet + IPv4 + UDP + VXLAN + inner Ethernet
  const ETH_P_IP := 0x0800
  const PROTO_TCP := 6
  const PROTO_UDP := 17

  /** The frame starts with an Ethernet header that announces IPv4. */
  predicate EtherIpv4(s: Frame) {
    |s| >= ETH_HLEN && U16(s, 12) == ETH_P_IP
  }

  // A packet is what lies between an IPv4 header pointer and `data_end`.

  function Tos(q: Frame): byte requires IP_LEN <= |q| { q[1] }

  function TotalLength(q: Frame): nat requires IP_LEN <= |q| { U16(q, 2) }

  function Protocol(q: Frame): byte requires IP_LEN <= |q| { q[9] }

  function Source(q: Frame): nat requires IP_LEN <= |q| { U32(q, 12) }

  function Destination(q: Frame): nat requires IP_LEN <= |q| { U32(q, 16) }

  /** An unfragmented, option-free IPv4 header whose total length fits in `available`.
      The mask 0xbfff leaves only the don't-fragment bit free. */
  predicate Ipv4Ok(q: Frame, available: nat) {
    && IP_LEN <= |q|
    && q[0] == 0x45
    && (U16(q, 6) == 0 || U16(q, 6) == 0x4000)
    && IP_LEN <= TotalLength(q) <= available
  }

  /** UDP, VXLAN and inner Ethernet behind the outer IPv4 header, nested by length.
      `q` starts at the outer IPv4 header, so the inner one is at 50. */
  predicate VxlanOk(q: Frame)
    requires IP_LEN <= |q|
  {
    && Protocol(q) == PROTO_UDP
    && 28 <= |q|
    && UDP_LEN + VXLAN_LEN + ETH_HLEN <= U16(q, 24) <= TotalLength(q) - IP_LEN
    && U16(q, 24) <= |q| - 20
    && 36 <= |q|
    && q[28] == 0x08 && q[29] == 0 && q[30] == 0 && q[31] == 0 && q[35] == 0
    && 50 <= |q|
    && U16(q, 48) == ETH_P_IP
    && Ipv4Ok(q[50..], InnerAvailable(q))
  }

  /** The bytes the outer UDP length leaves for the inner IPv4 packet. */
  function InnerAvailable(q: Frame): (n: nat)
    requires 26 <= |q| && U16(q, 24) >= UDP_LEN + VXLAN_LEN + ETH_HLEN
  {
    U16(q, 24) - UDP_LEN - VXLAN_LEN - ETH_HLEN
  }

  /** A plain IPv4 frame, as `tc_masq` and `tc_init_in` accept it. */
  predicate PlainOk(s: Frame) {
    EtherIpv4(s) && Ipv4Ok(s[ETH_HLEN..], |s| - ETH_HLEN)
  }

  /** A VXLAN frame around an IPv4 packet, as `tc_init_e` and `tc_restore` accept it. */
  predicate TunnelOk(s: Frame) {
    PlainOk(s) && VxlanOk(s[ETH_HLEN..])
  }

  function Packet(s: Frame): (q: Frame)
    requires PlainOk(s)
    ensures IP_LEN <= |q|
  {
    s[ETH_HLEN..]
  }

  function InnerPacket(s: Frame): (q: Frame)
    requires TunnelOk(s)
    ensures IP_LEN <= |q| && |s| == OUTER_LEN + |q|
  {
    s[OUTER_LEN..]
  }

  /** The inner packet is found at offset 64, and the length fields of an accepted frame
      nest strictly inside one another and inside the frame. */
  lemma NestedLengths(s: Frame)
    requires TunnelOk(s)
    ensures s[ETH_HLEN..][50..] == InnerPacket(s)
    ensures OUTER_LEN + TotalLength(InnerPacket(s)) <= 34 + U16(s, 38) <= ETH_HLEN + TotalLength(Packet(s)) <= |s|
  {
    assert s[ETH_HLEN..][50..] == s[OUTER_LEN..];
  }

  /** `check_l4_bound`: the transport header lies inside both the packet and the frame. */
  predicate TransportOk(q: Frame)
    requires IP_LEN <= |q|
  {
    var payload := TotalLength(q) - IP_LEN;
    && payload >= 0
    && (Protocol(q) == PROTO_UDP ==>
          payload >= UDP_LEN && 28 <= |q| && UDP_LEN <= U16(q, 24) <= payload)
    && (Protocol(q) == PROTO_TCP ==>
          payload >= 20 && 40 <= |q|)
  }

  /** The key both directions of a connection share, seen from the local pod. */
  datatype Flow = Flow(localAddr: nat, remoteAddr: nat, localPort: nat, remotePort: nat, protocol: byte)

  predicate HasPorts(protocol: byte) {
    protocol == PROTO_TCP || protocol == PROTO_UDP
  }

  /** `parse_5tuple_e`: the packet leaves the local pod. */
  function FlowOut(q: Frame): Option<Flow>
    requires IP_LEN <= |q|
  {
    if !TransportOk(q) then None
    else if HasPorts(Protocol(q)) then
      Some(Flow(Source(q), Destination(q), U16(q, 20), U16(q, 22), Protocol(q)))
    else
      Some(Flow(Source(q), Destination(q), 0, 0, Protocol(q)))
  }

  /** `parse_5tuple_in`: the packet enters the local pod. */
  function FlowIn(q: Frame): Option<Flow>
    requires IP_LEN <= |q|
  {
    if !TransportOk(q) then None
    else if HasPorts(Protocol(q)) then
      Some(Flow(Destination(q), Source(q), U16(q, 22), U16(q, 20), Protocol(q)))
    else
      Some(Flow(Destination(q), Source(q), 0, 0, Protocol(q)))
  }

  // ---- The parsers and the key on bytes ----

  /** The fragment mask of the source leaves the don't-fragment bit only. */
  lemma FragmentMask(x: bv16)
    ensures x & 0xbfff == 0 <==> x == 0 || x == 0x4000
  {
  }

  /** The bytes of a frame that `tc_masq` and `tc_init_in` look into. */
  lemma PlainBytes(s: Frame)
    ensures PlainOk(s) <==>
            && |s| >= 34
            && s[12] == 0x08 && s[13] == 0 && s[14] == 0x45
            && (s[20] == 0 || s[20] == 0x40) && s[21] == 0
            && 20 <= s[16] as int * 256 + s[17] as int <= |s| - 14
  {
  }

  /** The bytes of a frame that `tc_init_e` and `tc_restore` look into. */
  lemma TunnelBytes(s: Frame)
    ensures TunnelOk(s) <==>
            && PlainOk(s)
            && |s| >= 84
            && s[23] == 17
            && 30 <= s[38] as int * 256 + s[39] as int <= s[16] as int * 256 + s[17] as int - 20
            && s[38] as int * 256 + s[39] as int <= |s| - 34
            && s[42] == 0x08 && s[43] == 0 && s[44] == 0 && s[45] == 0 && s[49] == 0
            && s[62] == 0x08 && s[63] == 0 && s[64] == 0x45
            && (s[70] == 0 || s[70] == 0x40) && s[71] == 0
            && 20 <= s[66] as int * 256 + s[67] as int <= s[38] as int * 256 + s[39] as int - 30
  {
  }

  /** The packets that have a flow, and the same ones in both directions. */
  lemma FlowBytes(q: Frame)
    requires IP_LEN <= |q|
    ensures FlowOut(q).Some? <==> FlowIn(q).Some?
    ensures var total := q[2] as int * 256 + q[3] as int;
            FlowOut(q).Some? <==>
            && total >= 20
            && (q[9] == 17 ==> total >= 28 && |q| >= 28 && 8 <= q[24] as int * 256 + q[25] as int <= total - 20)
            && (q[9] == 6 ==> total >= 40 && |q| >= 40)
  {
  }

  /** Which end of the key is which: a packet that leaves the pod has the local end as its
      source, one that enters it has it as its destination. Only TCP and UDP have ports. */
  lemma LocalEnd(q: Frame)
    requires IP_LEN <= |q| && FlowOut(q).Some?
    ensures var ports := q[9] == 6 || q[9] == 17;
            var from, to := if ports then U16(q, 20) else 0, if ports then U16(q, 22) else 0;
            && FlowOut(q) == Some(Flow(U32(q, 12), U32(q, 16), from, to, q[9]))
            && FlowIn(q) == Some(Flow(U32(q, 16), U32(q, 12), to, from, q[9]))
  {
  }

  /** The bytes the key is made of: protocol, both addresses and, for TCP and UDP, both
      ports. */
  predicate SameKeyBytes(p: Frame, q: Frame)
    requires IP_LEN <= |p| && IP_LEN <= |q|
  {
    && p[9] == q[9]
    && p[12..20] == q[12..20]
    && (p[9] == 6 || p[9] == 17 ==> 24 <= |p| && 24 <= |q| && p[20..24] == q[20..24])
  }

  /** Two packets have one key if and only if they agree on those bytes, in either
      direction. */
  lemma KeyBytes(p: Frame, q: Frame)
    requires IP_LEN <= |p| && IP_LEN <= |q| && FlowOut(p).Some? && FlowOut(q).Some?
    ensures FlowOut(p) == FlowOut(q) <==> SameKeyBytes(p, q)
    ensures FlowIn(p) == FlowIn(q) <==> SameKeyBytes(p, q)
  {
    LocalEnd(p);
    LocalEnd(q);
    U32Bytes(p, q, 12);
    U32Bytes(p, q, 16);
    assert p[12..20] == p[12..16] + p[16..20] && q[12..20] == q[12..16] + q[16..20];
    if p[9] == q[9] && (p[9] == 6 || p[9] == 17) {
      U16Bytes(p, q, 20);
      U16Bytes(p, q, 22);
      assert p[20..24] == p[20..22] + p[22..24] && q[20..24] == q[20..22] + q[22..24];
    }
  }

  /** The reply to a packet: addresses swapped, and ports where there are any. */
  function Reversed(q: Frame): (r: Frame)
    requires IP_LEN <= |q| && TransportOk(q)
  {
    if HasPorts(Protocol(q))
    then q[..12] + q[16..20] + q[12..16] + q[22..24] + q[20..22] + q[24..]
    else q[..12] + q[16..20] + q[12..16] + q[20..]
  }

  /** Both learners of a connection meet on one key: a packet entering the pod has the
      key of its reply leaving the pod, and the other way round. */
  lemma FlowsMirror(q: Frame)
    requires IP_LEN <= |q| && TransportOk(q)
    ensures |Reversed(q)| == |q| && TransportOk(Reversed(q))
    ensures FlowIn(q) == FlowOut(Reversed(q))
    ensures FlowOut(q) == FlowIn(Reversed(q))
    ensures Reversed(Reversed(q)) == q
  {
    ReversedParts(q);
    var r := Reversed(q);
    assert TotalLength(r) == TotalLength(q) && Protocol(r) == Protocol(q);
    assert Source(r) == Destination(q) && Destination(r) == Source(q);
    if HasPorts(Protocol(q)) {
      assert U16(r, 20) == U16(q, 22) && U16(r, 22) == U16(q, 20);
      assert Protocol(q) == PROTO_UDP ==> r[24] == q[24] && r[25] == q[25];
      assert q == q[..12] + q[12..16] + q[16..20] + q[20..22] + q[22..24] + q[24..];
    } else {
      assert q == q[..12] + q[12..16] + q[16..20] + q[20..];
    }
  }

  /** The slices of a reply. */
  lemma ReversedParts(q: Frame)
    requires IP_LEN <= |q| && TransportOk(q)
    ensures var r := Reversed(q);
            && |r| == |q| && r[..12] == q[..12] && r[12..16] == q[16..20] && r[16..20] == q[12..16]
            && (if HasPorts(Protocol(q)) then r[20..22] == q[22..24] && r[22..24] == q[20..22] && r[24..] == q[24..]
                else r[20..] == q[20..])
            && (forall k :: 0 <= k < 12 ==> r[k] == q[k])
            && (forall k :: 12 <= k < 16 ==> r[k] == q[k + 4] && r[k + 4] == q[k])
            && (HasPorts(Protocol(q)) ==> forall k :: 20 <= k < 22 ==> r[k] == q[k + 2] && r[k + 2] == q[k])
            && (HasPorts(Protocol(q)) ==> forall k :: 24 <= k < |q| ==> r[k] == q[k])
  {
  }
}
