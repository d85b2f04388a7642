/** What the rewritten packets are: they parse, they carry a valid checksum, decapsulation
    undoes encapsulation, and no packet leaves half rewritten. */
module Encapsulation {
  import opened Bytes
  import opened Headers
  import opened Caches
  import opened Programs
  import Checksum

  // ---- No half-rewritten packet escapes ----

  /** `f` is `s` except possibly for the two reserved bits of the TOS byte at `off`. */
  predicate OnlyTosBits(f: Frame, s: Frame, off: nat) {
    f == s || (off < |s| && |f| == |s| && f == s[off := f[off]] && SameUpToMarks(f[off], s[off]))
  }

  /** A packet that is handed on has its old length and differs at most in the reserved
      bits of one TOS byte; one whose length changed is redirected or dropped. */
  predicate Untorn(o: Outcome, s: Frame) {
    o.Pass? ==> OnlyTosBits(o.frame, s, OUTER_TOS) || OnlyTosBits(o.frame, s, INNER_TOS)
  }

  lemma NoHalfRewrittenPacket(m: Maps, ifindex: u32, now: u64, hash: bv32, h: Helpers, s: Frame)
    ensures InitE(m, ifindex, now, h, s).1.Pass? && Untorn(InitE(m, ifindex, now, h, s).1, s)
    ensures InitIn(m, now, h, s).1.Pass? && Untorn(InitIn(m, now, h, s).1, s)
    ensures Untorn(Masq(m, ifindex, now, hash, h, s), s)
    ensures Untorn(Restore(m, ifindex, now, h, s), s)
    ensures Masq(m, ifindex, now, hash, h, s).Redirect? ==> |Masq(m, ifindex, now, hash, h, s).frame| == |s| + 50
    ensures Restore(m, ifindex, now, h, s).Redirect? ==> |Restore(m, ifindex, now, h, s).frame| == |s| - 50
  {
    LearnersUntorn(m, ifindex, now, h, s);
    MasqUntorn(m, ifindex, now, hash, h, s);
    RestoreUntorn(m, ifindex, now, h, s);
  }

  lemma LearnersUntorn(m: Maps, ifindex: u32, now: u64, h: Helpers, s: Frame)
    ensures InitE(m, ifindex, now, h, s).1.Pass? && Untorn(InitE(m, ifindex, now, h, s).1, s)
    ensures InitIn(m, now, h, s).1.Pass? && Untorn(InitIn(m, now, h, s).1, s)
  {
    TosEdits(s, OUTER_TOS, h);
    TosEdits(s, INNER_TOS, h);
  }

  lemma MasqUntorn(m: Maps, ifindex: u32, now: u64, hash: bv32, h: Helpers, s: Frame)
    ensures Untorn(Masq(m, ifindex, now, hash, h, s), s)
    ensures Masq(m, ifindex, now, hash, h, s).Redirect? ==> |Masq(m, ifindex, now, hash, h, s).frame| == |s| + 50
  {
    TosEdits(s, OUTER_TOS, h);
    var _ := MasqLookup(m, ifindex, now, s);
  }

  lemma RestoreUntorn(m: Maps, ifindex: u32, now: u64, h: Helpers, s: Frame)
    ensures Untorn(Restore(m, ifindex, now, h, s), s)
    ensures Restore(m, ifindex, now, h, s).Redirect? ==> |Restore(m, ifindex, now, h, s).frame| == |s| - 50
  {
    TosEdits(s, INNER_TOS, h);
    var _ := RestoreLookup(m, ifindex, now, s);
  }

  lemma TosEdits(s: Frame, off: nat, h: Helpers)
    ensures off < |s| ==> OnlyTosBits(MissMarked(s, off, h), s, off) && OnlyTosBits(Unmarked(s, off, h), s, off)
  {
    if off < |s| {
      MarksOnly(s[off]);
    }
  }

  // ---- Learned headers and the frames built from them ----

  /** The field checks a learned outer header passes, keyed by its own destination. */
  predicate TemplateOk(node: u32, t: Header) {
    && U16(t, 12) == ETH_P_IP
    && t[14] == 0x45
    && (U16(t, 20) == 0 || U16(t, 20) == 0x4000)
    && t[23] == PROTO_UDP
    && U32(t, 30) == node
    && t[42] == 0x08 && t[43] == 0 && t[44] == 0 && t[45] == 0 && t[49] == 0
    && U16(t, 62) == ETH_P_IP
  }

  lemma LearnedTemplateOk(s: Frame)
    requires TunnelOk(s)
    ensures TemplateOk(U32(s, 30), s[..OUTER_LEN])
  {
  }

  /** The bytes of the outer header that differ from packet to packet: total length,
      checksum, UDP source port and UDP length. */
  predicate Patched(k: nat) {
    k == 16 || k == 17 || k == 24 || k == 25 || k == 34 || k == 35 || k == 38 || k == 39
  }

  /** The bytes of a frame built from header `t` and packet `s`. */
  predicate Built(t: Header, s: Frame, port: nat, f: Frame)
    requires ETH_HLEN <= |s|
  {
    && |f| == |s| + 50
    && (forall k: nat :: k < OUTER_LEN && !Patched(k) ==> f[k] == t[k])
    && f[OUTER_LEN..] == s[ETH_HLEN..]
    && U16(f, 16) == (|s| + 36) % TWO_TO_THE_16
    && U16(f, 38) == (|s| + 16) % TWO_TO_THE_16
    && U16(f, 34) == port
    && U16(f, 24) == Checksum.Replace(U16(t, 24), U16(t, 16), U16(f, 16))
  }

  lemma EncapsulatedBytes(t: Header, s: Frame, port: nat)
    requires ETH_HLEN <= |s| && port < TWO_TO_THE_16
    ensures Built(t, s, port, Encapsulated(t, s, port))
  {
    var pasted := t + s[ETH_HLEN..];
    var f := Encapsulated(t, s, port);
    assert U16(pasted, 24) == U16(t, 24) && U16(pasted, 16) == U16(t, 16);
    assert forall k: nat :: k < OUTER_LEN && !Patched(k) ==> f[k] == pasted[k];
    assert f[OUTER_LEN..] == pasted[OUTER_LEN..];
    PutRead((|s| + 36) % TWO_TO_THE_16);
    PutRead((|s| + 16) % TWO_TO_THE_16);
    PutRead(port);
    PutRead(Checksum.Replace(U16(t, 24), U16(t, 16), (|s| + 36) % TWO_TO_THE_16));
  }

  lemma PutRead(v: nat)
    requires v < TWO_TO_THE_16
    ensures Put16(v)[0] as int * 256 + Put16(v)[1] as int == v
  {
  }

  /** The two length fields of a frame built from `s`, truncated to 16 bits, still nest
      around the packet in it. */
  predicate Admitted(s: Frame)
    requires PlainOk(s)
  {
    var udp, ip := (|s| + 16) % TWO_TO_THE_16, (|s| + 36) % TWO_TO_THE_16;
    TotalLength(Packet(s)) + 30 <= udp && udp + 20 <= ip
  }

  /** The parsers accept the frame, and see the original packet as the inner one. */
  predicate Carries(node: u32, t: Header, s: Frame, f: Frame)
    requires PlainOk(s)
  {
    TunnelOk(f) && InnerPacket(f) == Packet(s) && U32(f, 30) == node && f[..ETH_HLEN] == t[..ETH_HLEN]
  }

  /** The same, with the same bytes available to the inner packet and the outer length that
      of the frame. */
  predicate Wraps(node: u32, t: Header, s: Frame, f: Frame)
    requires PlainOk(s)
  {
    && Carries(node, t, s, f)
    && InnerAvailable(f[ETH_HLEN..]) == |s| - ETH_HLEN
    && TotalLength(Packet(f)) == |f| - ETH_HLEN
  }

  lemma BuiltCarries(node: u32, t: Header, s: Frame, port: nat, f: Frame)
    requires PlainOk(s) && TemplateOk(node, t) && Built(t, s, port, f)
    ensures Carries(node, t, s, f) <==> Admitted(s)
    ensures TunnelOk(f) <==> Admitted(s)
    ensures Wraps(node, t, s, f) <==> |s| + 36 <= 65535
  {
    var q := f[ETH_HLEN..];
    assert q[50..] == f[OUTER_LEN..];
    assert U16(q, 24) == U16(f, 38) && U16(q, 2) == U16(f, 16);
    OuterFieldsKept(node, t, s, port, f);
    assert f[..ETH_HLEN] == t[..ETH_HLEN] by {
      assert forall k: nat :: k < ETH_HLEN ==> !Patched(k);
    }
    BuiltLengths(t, s, port, f);
  }

  lemma OuterFieldsKept(node: u32, t: Header, s: Frame, port: nat, f: Frame)
    requires PlainOk(s) && TemplateOk(node, t) && Built(t, s, port, f)
    ensures EtherIpv4(f) && U32(f, 30) == node
    ensures var q := f[ETH_HLEN..];
            && q[0] == 0x45 && (U16(q, 6) == 0 || U16(q, 6) == 0x4000) && Protocol(q) == PROTO_UDP
            && q[28] == 0x08 && q[29] == 0 && q[30] == 0 && q[31] == 0 && q[35] == 0
            && U16(q, 48) == ETH_P_IP
  {
    assert !Patched(12) && !Patched(13) && !Patched(14) && !Patched(20) && !Patched(21) && !Patched(23);
    assert !Patched(30) && !Patched(31) && !Patched(32) && !Patched(33);
    assert !Patched(42) && !Patched(43) && !Patched(44) && !Patched(45) && !Patched(49);
    assert !Patched(62) && !Patched(63);
  }

  /** A frame `tc_masq` builds from a learned header is accepted by the parsers exactly when
      its truncated lengths admit it, and exactly as it is up to the size that fits in 16 bits. */
  lemma EncapsulatedParses(node: u32, t: Header, s: Frame, port: nat)
    requires TemplateOk(node, t) && PlainOk(s) && port < TWO_TO_THE_16
    ensures Carries(node, t, s, Encapsulated(t, s, port)) <==> Admitted(s)
    ensures TunnelOk(Encapsulated(t, s, port)) <==> Admitted(s)
    ensures Wraps(node, t, s, Encapsulated(t, s, port)) <==> |s| + 36 <= 65535
  {
    EncapsulatedBytes(t, s, port);
    BuiltCarries(node, t, s, port, Encapsulated(t, s, port));
  }

  /** A 65500-byte frame around a UDP packet that fills it. */
  function LargeFrame(): Frame {
    [0, 0, 0, 0, 0, 0, 0, 0, 0, 0, 0, 0, 0x08, 0x00, 0x45, 0, 0xff, 0xce, 0, 0, 0, 0, 64, 17, 0, 0,
     10, 0, 0, 1, 10, 0, 0, 2] + seq(65466, k => 0)
  }

  /** Above the bound a frame can be lost: the outer total length of this one is truncated to
      zero, and no receiver accepts it. */
  lemma LargeFrameIsRefused(node: u32, t: Header, port: nat)
    requires TemplateOk(node, t) && port < TWO_TO_THE_16
    ensures PlainOk(LargeFrame()) && |LargeFrame()| == 65500
    ensures U16(Encapsulated(t, LargeFrame(), port), 16) == 0 && !TunnelOk(Encapsulated(t, LargeFrame(), port))
  {
    var s := LargeFrame();
    assert s[12] == 0x08 && s[13] == 0 && s[14] == 0x45 && s[16] == 0xff && s[17] == 0xce && s[20] == 0 && s[21] == 0;
    LargeIsPlain(s);
    EncapsulatedBytes(t, s, port);
    EncapsulatedParses(node, t, s, port);
  }

  lemma LargeIsPlain(s: Frame)
    requires |s| == 65500 && s[12] == 0x08 && s[13] == 0 && s[14] == 0x45
    requires s[16] == 0xff && s[17] == 0xce && s[20] == 0 && s[21] == 0
    ensures PlainOk(s) && !Admitted(s)
  {
  }

  /** The length fields are the frame's own exactly when they fit in 16 bits. */
  lemma LengthFieldExact(t: Header, s: Frame, port: nat)
    requires ETH_HLEN <= |s| && port < TWO_TO_THE_16
    ensures var f := Encapsulated(t, s, port);
            && (U16(f, 16) == |s| + 36 <==> |s| + 36 <= 65535)
            && (U16(f, 38) == |s| + 16 <==> |s| + 16 <= 65535)
  {
    EncapsulatedBytes(t, s, port);
    BuiltLengths(t, s, port, Encapsulated(t, s, port));
  }

  lemma BuiltLengths(t: Header, s: Frame, port: nat, f: Frame)
    requires ETH_HLEN <= |s| && Built(t, s, port, f)
    ensures U16(f, 16) == |s| + 36 <==> |s| + 36 <= 65535
    ensures U16(f, 38) == |s| + 16 <==> |s| + 16 <= 65535
  {
    TruncationExact(|s| + 36);
    TruncationExact(|s| + 16);
  }

  lemma TruncationExact(n: nat)
    ensures n % TWO_TO_THE_16 == n <==> n <= 65535
  {
  }

  /** The incremental update is exact on the wire: the frame's outer header verifies
      exactly when the learned header did, for every packet length. */
  lemma ChecksumCarriesOver(t: Header, s: Frame, port: nat)
    requires ETH_HLEN <= |s| && port < TWO_TO_THE_16 && t[14] == 0x45
    ensures Checksum.Verifies(Checksum.HeaderWords(Encapsulated(t, s, port), ETH_HLEN))
            <==> Checksum.Verifies(Checksum.HeaderWords(t, ETH_HLEN))
  {
    EncapsulatedBytes(t, s, port);
    BuiltChecksum(t, s, port, Encapsulated(t, s, port));
  }

  lemma BuiltChecksum(t: Header, s: Frame, port: nat, f: Frame)
    requires ETH_HLEN <= |s| && t[14] == 0x45 && Built(t, s, port, f)
    ensures Checksum.Verifies(Checksum.HeaderWords(f, ETH_HLEN))
            <==> Checksum.Verifies(Checksum.HeaderWords(t, ETH_HLEN))
  {
    var before, after := Checksum.HeaderWords(t, ETH_HLEN), Checksum.HeaderWords(f, ETH_HLEN);
    var total := U16(f, 16);
    forall k: nat | k < 10
      ensures after[k] == before[5 := Checksum.Replace(before[5], before[1], total)][1 := total][k]
    {
      var i := ETH_HLEN + 2 * k;
      if k != 1 && k != 5 {
        assert !Patched(i) && !Patched(i + 1);
      }
    }
    assert after == before[5 := Checksum.Replace(before[5], before[1], total)][1 := total];
    Checksum.ReplaceIsExact(before, 5, 1, 0, total);
  }

  // ---- Decapsulation undoes encapsulation ----

  /** The receiver's side of a delivery, read off the sender's packet `s` and header `t`. */
  predicate Deliverable(m: Maps, ifindex: u32, now: u64, node: u32, t: Header, s: Frame)
    requires PlainOk(s)
  {
    var q := Packet(s);
    && Allows(m.control, now)
    && ifindex in m.dev && m.dev[ifindex].mac == t[..6] && m.dev[ifindex].ipv4 == node
    && FlowIn(q).Some? && FlowReady(m, FlowIn(q).value)
    && PodReady(m, Destination(q))
    && Source(q) in m.egressip
    && TargetValid(m.ingress[Destination(q)].ifindex, ifindex)
  }

  /** Round trip. A receiver redirects the frame built from `s` exactly when its lengths
      admit it and the receiver's devices and caches match, and what it delivers is its pod's
      two MACs followed by the original frame from offset 12 on: nothing lost, nothing added. */
  lemma RestoreUndoesMasq(node: u32, t: Header, s: Frame, port: nat, m: Maps, ifindex: u32, now: u64, h: Helpers)
    requires TemplateOk(node, t) && PlainOk(s) && port < TWO_TO_THE_16
    ensures var o := Restore(m, ifindex, now, h, Encapsulated(t, s, port));
            && (o.Redirect? <==>
                  Admitted(s) && Deliverable(m, ifindex, now, node, t, s) && h.roomAdjusted && h.redirected)
            && (o.Redirect? ==>
                  var entry := m.ingress[Destination(Packet(s))];
                  o == Redirect(entry.ifindex, entry.dstMac + entry.srcMac + s[12..]))
  {
    var f := Encapsulated(t, s, port);
    EncapsulatedParses(node, t, s, port);
    if Admitted(s) {
      RestoreOfCarried(node, t, s, f, m, ifindex, now, h);
    }
  }

  lemma RestoreOfCarried(node: u32, t: Header, s: Frame, f: Frame, m: Maps, ifindex: u32, now: u64, h: Helpers)
    requires PlainOk(s) && Carries(node, t, s, f)
    ensures var o := Restore(m, ifindex, now, h, f);
            && (o.Redirect? <==> Deliverable(m, ifindex, now, node, t, s) && h.roomAdjusted && h.redirected)
            && (o.Redirect? ==>
                  var entry := m.ingress[Destination(Packet(s))];
                  o == Redirect(entry.ifindex, entry.dstMac + entry.srcMac + s[12..]))
  {
    assert f[..6] == f[..ETH_HLEN][..6];
    assert t[..6] == t[..ETH_HLEN][..6];
    if RestoreLookup(m, ifindex, now, f).Hit? {
      DecapsulatedFrame(s, f, m.ingress[Destination(Packet(s))]);
    }
  }

  lemma DecapsulatedFrame(s: Frame, f: Frame, entry: Ingress)
    requires PlainOk(s) && TunnelOk(f) && InnerPacket(f) == Packet(s)
    ensures Decapsulated(entry, f) == entry.dstMac + entry.srcMac + s[12..]
  {
    EtherTypeBytes(f);
    EtherTypeBytes(s);
    assert f[12..14] == s[12..14];
    assert s[12..14] + s[ETH_HLEN..] == s[12..];
  }

  lemma EtherTypeBytes(s: Frame)
    requires EtherIpv4(s)
    ensures s[12] == 0x08 && s[13] == 0x00
  {
  }
}
