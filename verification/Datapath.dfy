/** The four TC programs over one packet buffer and the shared maps, step by step, each
    proved against its function in module Programs. */
module Datapath {
  import opened Bytes
  import opened Wrappers
  import opened Headers
  import opened Caches
  import opened Programs
  import Checksum

  datatype Action = TC_ACT_OK | TC_ACT_SHOT | TC_ACT_REDIRECT

  /** A fully linear packet buffer. Each helper takes its outcome as a parameter. */
  class Skb {
    var data: Frame
    const ifindex: u32

    constructor (ifindex: u32, data: Frame)
      ensures this.ifindex == ifindex && this.data == data
    {
      this.ifindex := ifindex;
      this.data := data;
    }

    /** `bpf_skb_store_bytes`. */
    method StoreBytes(off: nat, d: Frame, ok: bool) returns (err: bool)
      modifies this
      ensures err <==> !ok || |old(data)| < off + |d|
      ensures data == if err then old(data) else Write(old(data), off, d)
    {
      err := !ok || |data| < off + |d|;
      if !err {
        data := Write(data, off, d);
      }
    }

    /** `bpf_l3_csum_replace` of a two-byte field. */
    method L3CsumReplace(off: nat, from: Checksum.Word, to: Checksum.Word, ok: bool) returns (err: bool)
      modifies this
      ensures err <==> !ok || |old(data)| < off + 2
      ensures data == if err then old(data)
                      else Write(old(data), off, Put16(Checksum.Replace(U16(old(data), off), from, to)))
    {
      err := !ok || |data| < off + 2;
      if !err {
        data := Write(data, off, Put16(Checksum.Replace(U16(data, off), from, to)));
      }
    }

    /** `bpf_skb_adjust_room(+50, BPF_ADJ_ROOM_MAC)`: room behind the Ethernet header. */
    method GrowRoom(ok: bool) returns (err: bool)
      modifies this
      ensures err <==> !ok || |old(data)| < ETH_HLEN
      ensures data == if err then old(data)
                      else old(data)[..ETH_HLEN] + seq(50, _ => 0) + old(data)[ETH_HLEN..]
    {
      err := !ok || |data| < ETH_HLEN;
      if !err {
        data := data[..ETH_HLEN] + seq(50, _ => 0) + data[ETH_HLEN..];
      }
    }

    /** `bpf_skb_adjust_room(-50, BPF_ADJ_ROOM_MAC)`: the room is cut out again. */
    method ShrinkRoom(ok: bool) returns (err: bool)
      modifies this
      ensures err <==> !ok || |old(data)| < OUTER_LEN
      ensures data == if err then old(data) else old(data)[..ETH_HLEN] + old(data)[OUTER_LEN..]
    {
      err := !ok || |data| < OUTER_LEN;
      if !err {
        data := data[..ETH_HLEN] + data[OUTER_LEN..];
      }
    }

    /** `set_ip_tos` with the miss mask. */
    method SetMissMark(off: nat, ok: bool) returns (err: bool)
      requires off < |data|
      modifies this
      ensures data == if ok then old(data)[off := MarkMiss(old(data)[off])] else old(data)
    {
      err := StoreBytes(off, [MarkMiss(data[off])], ok);
    }

    /** `set_ip_tos` with the empty mask. */
    method ClearTosMarks(off: nat, ok: bool) returns (err: bool)
      requires off < |data|
      modifies this
      ensures data == if ok then old(data)[off := ClearMarks(old(data)[off])] else old(data)
    {
      err := StoreBytes(off, [ClearMarks(data[off])], ok);
    }

    /** `set_new_length_outerhdr`: all three fields are patched, or the call fails. */
    method SetNewLengthOuterHdr(n: nat, h: Helpers) returns (err: bool)
      modifies this
      ensures |data| == |old(data)|
      ensures err <==> n < 42 || |data| < 42 || !h.udpLengthStored || !h.checksumReplaced || !h.ipLengthStored
      ensures !err ==> data == LengthsPatched(old(data), n)
    {
      if n < ETH_HLEN + IP_LEN + UDP_LEN || |data| < ETH_HLEN + IP_LEN + UDP_LEN {
        return true;
      }
      err := StoreBytes(38, Put16((n - ETH_HLEN - IP_LEN) % TWO_TO_THE_16), h.udpLengthStored);
      if err {
        return;
      }
      var oldLen := U16(data, 16);
      var ipLen := (n - ETH_HLEN) % TWO_TO_THE_16;
      err := L3CsumReplace(24, oldLen, ipLen, h.checksumReplaced);
      if err {
        return;
      }
      err := StoreBytes(16, Put16(ipLen), h.ipLengthStored);
    }
  }

  /** What the kernel makes of a verdict and the buffer it leaves behind. */
  function Verdict(action: Action, target: u32, frame: Frame): Outcome {
    match action
    case TC_ACT_OK => Pass(frame)
    case TC_ACT_REDIRECT => Redirect(target, frame)
    case TC_ACT_SHOT => Drop
  }

  class SharedMaps {
    var ingress: map<u32, Ingress>
    var egressip: map<u32, u32>
    var egress: map<u32, Egress>
    var policy: map<Flow, Ready>
    var dev: map<u32, Device>
    var control: Option<Control>

    function View(): Maps
      reads this
    {
      Maps(ingress, egressip, egress, policy, dev, control)
    }

    /** `bpf_map_update_elem(&policy_cache, …, BPF_NOEXIST)`, and on failure the ready bit
        of the entry that is there. */
    method LearnFlow(flow: Flow, side: Side, inserted: bool)
      modifies this`policy
      ensures policy == Learned(old(policy), flow, side, inserted)
    {
      if flow !in policy && inserted {
        policy := policy[flow := Ready(side.IngressSide?, side.EgressSide?)];
      } else if flow in policy {
        policy := policy[flow := match side
                                 case EgressSide => policy[flow].(egress := true)
                                 case IngressSide => policy[flow].(ingress := true)];
      }
    }

    method TcInitE(skb: Skb, now: u64, h: Helpers) returns (action: Action)
      modifies this`policy, this`egress, this`egressip, skb
      ensures (View(), Verdict(action, 0, skb.data)) == InitE(old(View()), skb.ifindex, now, h, old(skb.data))
    {
      action := TC_ACT_OK;
      if !Allows(control, now) {
        return;
      }
      if !PlainOk(skb.data) || !VxlanOk(skb.data[ETH_HLEN..]) {
        return;
      }
      var inner := InnerPacket(skb.data);
      if !BothMarks(Tos(inner)) {
        return;
      }
      var flow := FlowOut(inner);
      if flow.None? {
        return;
      }
      LearnFlow(flow.value, EgressSide, h.policyInserted);
      var node := U32(skb.data, 30);
      if node !in egress && h.egressInserted {
        egress := egress[node := Egress(skb.data[..OUTER_LEN], skb.ifindex)];
      }
      if Destination(inner) !in egressip && h.egressipInserted {
        egressip := egressip[Destination(inner) := node];
      }
      var _ := skb.ClearTosMarks(INNER_TOS, h.tosStored);
    }

    /** The checks and lookups of `tc_masq`, up to the first change of the packet. */
    method LookupMasq(ifindex: u32, now: u64, frame: Frame) returns (d: Decision<Egress>)
      ensures d == MasqLookup(View(), ifindex, now, frame)
    {
      if !Allows(control, now) {
        return Leave;
      }
      if !PlainOk(frame) {
        return Leave;
      }
      var packet := Packet(frame);
      var flow := FlowOut(packet);
      if flow.None? {
        return Leave;
      }
      if flow.value !in policy || !(policy[flow.value].ingress && policy[flow.value].egress) {
        return Miss;
      }
      if Destination(packet) !in egressip {
        return Miss;
      }
      var node := egressip[Destination(packet)];
      if node !in egress {
        return Miss;
      }
      if Source(packet) !in ingress || ingress[Source(packet)].srcMac[0] == 0 {
        return Leave;
      }
      if !TargetValid(egress[node].ifindex, ifindex) {
        return Leave;
      }
      return Hit(egress[node]);
    }

    method TcMasq(skb: Skb, now: u64, hash: bv32, h: Helpers) returns (action: Action, target: u32)
      modifies skb
      ensures Verdict(action, target, skb.data) == Masq(View(), skb.ifindex, now, hash, h, old(skb.data))
    {
      target := 0;
      var decision := LookupMasq(skb.ifindex, now, skb.data);
      match decision {
        case Leave =>
          action := TC_ACT_OK;
        case Miss =>
          var _ := skb.SetMissMark(OUTER_TOS, h.tosStored);
          action := TC_ACT_OK;
        case Hit(entry) =>
          target := entry.ifindex;
          action := PasteOuterHeader(skb, entry.header, hash, h);
      }
    }

    /** The rewriting half of `tc_masq`: after the room is made, the packet is either
        complete and redirected, or dropped. */
    static method PasteOuterHeader(skb: Skb, header: Header, hash: bv32, h: Helpers) returns (action: Action)
      requires ETH_HLEN <= |skb.data|
      modifies skb
      ensures action == if !h.roomAdjusted then TC_ACT_OK
                        else if h.udpLengthStored && h.checksumReplaced && h.ipLengthStored && h.portStored
                                && h.redirected
                        then TC_ACT_REDIRECT else TC_ACT_SHOT
      ensures action == TC_ACT_OK ==> skb.data == old(skb.data)
      ensures action == TC_ACT_REDIRECT ==> skb.data == Encapsulated(header, old(skb.data), SourcePort(hash))
    {
      var err := skb.GrowRoom(h.roomAdjusted);
      if err {
        return TC_ACT_OK;
      }
      skb.data := header + skb.data[OUTER_LEN..];
      assert skb.data == header + old(skb.data)[ETH_HLEN..];
      err := skb.SetNewLengthOuterHdr(|skb.data|, h);
      if err {
        return TC_ACT_SHOT;
      }
      err := skb.StoreBytes(34, Put16(SourcePort(hash)), h.portStored);
      if err {
        return TC_ACT_SHOT;
      }
      action := if h.redirected then TC_ACT_REDIRECT else TC_ACT_SHOT;
    }

    /** The checks and lookups of `tc_restore`, up to the first change of the packet. */
    method LookupRestore(ifindex: u32, now: u64, frame: Frame) returns (d: Decision<Ingress>)
      ensures d == RestoreLookup(View(), ifindex, now, frame)
    {
      if !Allows(control, now) {
        return Leave;
      }
      if !PlainOk(frame) || !VxlanOk(frame[ETH_HLEN..]) {
        return Leave;
      }
      if ifindex !in dev || frame[..6] != dev[ifindex].mac {
        return Leave;
      }
      if U32(frame, 30) != dev[ifindex].ipv4 {
        return Leave;
      }
      var inner := InnerPacket(frame);
      var flow := FlowIn(inner);
      if flow.None? {
        return Leave;
      }
      if flow.value !in policy || !(policy[flow.value].ingress && policy[flow.value].egress) {
        return Miss;
      }
      if Destination(inner) !in ingress || ingress[Destination(inner)].srcMac[0] == 0 {
        return Miss;
      }
      if Source(inner) !in egressip {
        return Leave;
      }
      if !TargetValid(ingress[Destination(inner)].ifindex, ifindex) {
        return Leave;
      }
      return Hit(ingress[Destination(inner)]);
    }

    method TcRestore(skb: Skb, now: u64, h: Helpers) returns (action: Action, target: u32)
      modifies skb
      ensures Verdict(action, target, skb.data) == Restore(View(), skb.ifindex, now, h, old(skb.data))
    {
      target := 0;
      var decision := LookupRestore(skb.ifindex, now, skb.data);
      match decision {
        case Leave =>
          action := TC_ACT_OK;
        case Miss =>
          var _ := skb.SetMissMark(INNER_TOS, h.tosStored);
          action := TC_ACT_OK;
        case Hit(entry) =>
          target := entry.ifindex;
          action := StripOuterHeader(skb, entry, h);
      }
    }

    /** The rewriting half of `tc_restore`. */
    static method StripOuterHeader(skb: Skb, entry: Ingress, h: Helpers) returns (action: Action)
      requires OUTER_LEN + IP_LEN <= |skb.data|
      modifies skb
      ensures action == if !h.roomAdjusted then TC_ACT_OK else if h.redirected then TC_ACT_REDIRECT else TC_ACT_SHOT
      ensures action == TC_ACT_OK ==> skb.data == old(skb.data)
      ensures action == TC_ACT_REDIRECT ==> skb.data == Decapsulated(entry, old(skb.data))
    {
      var err := skb.ShrinkRoom(h.roomAdjusted);
      if err {
        return TC_ACT_OK;
      }
      skb.data := Write(skb.data, 0, entry.dstMac);
      skb.data := Write(skb.data, 6, entry.srcMac);
      assert skb.data == Decapsulated(entry, old(skb.data));
      action := if h.redirected then TC_ACT_REDIRECT else TC_ACT_SHOT;
    }

    method TcInitIn(skb: Skb, now: u64, h: Helpers) returns (action: Action)
      modifies this`ingress, this`policy, skb
      ensures (View(), Verdict(action, 0, skb.data)) == InitIn(old(View()), now, h, old(skb.data))
    {
      action := TC_ACT_OK;
      if !Allows(control, now) {
        return;
      }
      if !PlainOk(skb.data) {
        return;
      }
      var packet := Packet(skb.data);
      if !BothMarks(Tos(packet)) {
        return;
      }
      var pod := Destination(packet);
      if pod !in ingress {
        return;
      }
      ingress := ingress[pod := ingress[pod].(dstMac := skb.data[..6])];
      ingress := ingress[pod := ingress[pod].(srcMac := skb.data[6..12])];
      assert ingress == old(ingress)[pod := old(ingress)[pod].(dstMac := skb.data[..6], srcMac := skb.data[6..12])];
      var flow := FlowIn(packet);
      if flow.None? {
        return;
      }
      LearnFlow(flow.value, IngressSide, h.policyInserted);
      var _ := skb.ClearTosMarks(OUTER_TOS, h.tosStored);
    }
  }
}
