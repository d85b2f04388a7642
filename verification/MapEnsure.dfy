/** Endpoint and device entries: byte encoding, and writing them only where they differ. */
module MapEnsure {
  import opened Bytes
  import opened Caches
  import opened Kernel

  /** The byte order of the host, shared by the agent and the kernel. */
  datatype Endian = Little | Big

  function PutU32(order: Endian, v: u32): (s: Frame)
    ensures |s| == 4
  {
    var b := [v / 0x100_0000, v / 0x1_0000 % 256, v / 256 % 256, v % 256];
    if order.Big? then b else [b[3], b[2], b[1], b[0]]
  }

  function GetU32(order: Endian, s: Frame): u32
    requires |s| == 4
  {
    if order.Big? then U32(s, 0) else U32([s[3], s[2], s[1], s[0]], 0)
  }

  lemma NativeRoundTrip(order: Endian, v: u32)
    ensures GetU32(order, PutU32(order, v)) == v
  {
    assert v as int == 0x100_0000 * (v / 0x100_0000) + 0x1_0000 * (v / 0x1_0000 % 256)
                       + 256 * (v / 256 % 256) + v % 256 by {
      assert v / 256 == 256 * (v / 0x1_0000) + v / 256 % 256;
      assert v / 0x1_0000 == 256 * (v / 0x100_0000) + v / 0x1_0000 % 256;
    }
  }

  /** The host's own byte order: least significant byte first, or last. */
  lemma NativeBytes(v: u32)
    ensures var a, b, c, d := v % 256, v / 256 % 256, v / 0x1_0000 % 256, v / 0x100_0000;
            PutU32(Little, v) == [a, b, c, d] && PutU32(Big, v) == [d, c, b, a]
  {
  }

  /** `uint32(IfIndex)`. */
  function Ifindex32(ifindex: int): u32 {
    ifindex % 0x1_0000_0000
  }

  /** The interfaces whose index the conversion does not change. */
  predicate InRange(link: Link) {
    0 <= link.ifindex < 0x1_0000_0000
  }

  lemma IndexKept(link: Link)
    requires InRange(link)
    ensures Ifindex32(link.ifindex) as int == link.ifindex
  {
  }

  /** The value layout: interface index, destination MAC, source MAC. */
  function IngressValue(order: Endian, e: Endpoint): (v: Frame)
    requires |e.peer.mac| == 6 && |e.host.mac| == 6
    ensures |v| == 16
  {
    PutU32(order, Ifindex32(e.host.ifindex)) + e.peer.mac + e.host.mac
  }

  function DeviceKey(order: Endian, link: Link): (k: Frame)
    ensures |k| == 4
  {
    PutU32(order, Ifindex32(link.ifindex))
  }

  /** Address, MAC and two bytes of padding. */
  function DeviceValue(link: Link, ip: Ipv4): (v: Frame)
    requires |link.mac| == 6
    ensures |v| == 12
  {
    ip + link.mac + [0, 0]
  }

  /** `encodeIngressEntry`, into a buffer. */
  method EncodeIngressEntry(order: Endian, e: Endpoint) returns (key: Frame, value: Frame)
    requires e.podIp.Some? && |e.peer.mac| == 6 && |e.host.mac| == 6
    ensures key == e.podIp.value && value == IngressValue(order, e)
  {
    key := e.podIp.value;
    var buffer := new byte[16](_ => 0);
    Copy(buffer, 0, PutU32(order, Ifindex32(e.host.ifindex)));
    Copy(buffer, 4, e.peer.mac);
    Copy(buffer, 10, e.host.mac);
    value := buffer[..];
    assert value == value[..4] + value[4..10] + value[10..16];
    assert value[..4] == PutU32(order, Ifindex32(e.host.ifindex));
  }

  /** `encodeDeviceEntry`, into buffers. */
  method EncodeDeviceEntry(order: Endian, link: Link, ip: Ipv4) returns (key: Frame, value: Frame)
    requires |link.mac| == 6
    ensures key == DeviceKey(order, link) && value == DeviceValue(link, ip)
  {
    key := PutU32(order, Ifindex32(link.ifindex));
    var buffer := new byte[12](_ => 0);
    Copy(buffer, 0, ip);
    Copy(buffer, 4, link.mac);
    value := buffer[..];
    assert value == value[..4] + value[4..10] + value[10..12];
    assert value[10..12] == [0, 0];
  }

  /** Go's `copy` into a slice that is long enough. */
  method Copy(buffer: array<byte>, off: nat, src: Frame)
    requires off + |src| <= buffer.Length
    modifies buffer
    ensures buffer[off..off + |src|] == src
    ensures forall k :: 0 <= k < buffer.Length && !(off <= k < off + |src|) ==> buffer[k] == old(buffer[k])
  {
    var i := 0;
    while i < |src|
      invariant 0 <= i <= |src|
      invariant forall k :: 0 <= k < i ==> buffer[off + k] == src[k]
      invariant forall k :: 0 <= k < buffer.Length && !(off <= k < off + i) ==> buffer[k] == old(buffer[k])
    {
      buffer[off + i] := src[i];
      i := i + 1;
    }
  }

  /** How the packet programs read the same bytes. */
  function DecodeIngress(order: Endian, v: Frame): Ingress
    requires |v| == 16
  {
    Ingress(GetU32(order, v[..4]), v[4..10], v[10..16])
  }

  function DecodeDevice(v: Frame): Device
    requires |v| == 12
  {
    Device(U32(v, 0), v[4..10])
  }

  /** The programs read back what the control plane encoded, in either byte order: the host
      link's interface, the pod's MAC as destination and the host link's MAC as source. */
  lemma EncodingRoundTrip(order: Endian, e: Endpoint, link: Link, ip: Ipv4)
    requires |e.peer.mac| == 6 && |e.host.mac| == 6 && |link.mac| == 6
    ensures DecodeIngress(order, IngressValue(order, e)) == Ingress(Ifindex32(e.host.ifindex), e.peer.mac, e.host.mac)
    ensures InRange(e.host) ==> DecodeIngress(order, IngressValue(order, e)).ifindex as int == e.host.ifindex
    ensures GetU32(order, DeviceKey(order, link)) == Ifindex32(link.ifindex)
    ensures InRange(link) ==> GetU32(order, DeviceKey(order, link)) as int == link.ifindex
    ensures DecodeDevice(DeviceValue(link, ip)) == Device(U32(ip, 0), link.mac)
    ensures DeviceValue(link, ip)[10..] == [0, 0]
  {
    NativeRoundTrip(order, Ifindex32(e.host.ifindex));
    NativeRoundTrip(order, Ifindex32(link.ifindex));
    var v := IngressValue(order, e);
    assert v[..4] == PutU32(order, Ifindex32(e.host.ifindex));
    assert v[4..10] == e.peer.mac && v[10..16] == e.host.mac;
    var d := DeviceValue(link, ip);
    assert d[4..10] == link.mac;
    assert U32(d, 0) == U32(ip, 0);
  }

  /** The layouts are those of the maps: four-byte keys, values of 16 and 12 bytes. */
  lemma LayoutIsTheSchema(order: Endian, e: Endpoint, link: Link, ip: Ipv4)
    requires |e.peer.mac| == 6 && |e.host.mac| == 6 && |link.mac| == 6
    ensures SCHEMA[IngressCache].keySize == |ip| && SCHEMA[IngressCache].valueSize == |IngressValue(order, e)|
    ensures SCHEMA[Devmap].keySize == |DeviceKey(order, link)| && SCHEMA[Devmap].valueSize == |DeviceValue(link, ip)|
  {
  }

  datatype MapFaults = MapFaults(cancelled: bool, open: bool, lookup: bool, cancelledLater: bool, update: bool)

  const NO_MAP_FAULTS := MapFaults(false, false, false, false, false)

  datatype Written = Unchanged | Updated | Failed

  function WithEntry(maps: PinnedMaps, name: MapName, key: Frame, value: Frame): PinnedMaps
    requires name in maps
  {
    maps[name := maps[name].(entries := maps[name].entries[key := value])]
  }

  predicate Has(maps: PinnedMaps, name: MapName, key: Frame, value: Frame) {
    name in maps && key in maps[name].entries && maps[name].entries[key] == value
  }

  /** The map can be opened and looked up, and an existing value has the right size. */
  predicate Lookable(maps: PinnedMaps, name: MapName, key: Frame, value: Frame, f: MapFaults) {
    && !f.cancelled && key != [] && value != [] && name in maps && !f.open && !f.lookup
    && (key in maps[name].entries ==> |maps[name].entries[key]| == |value|)
  }

  /** Writing an entry that is already there changes nothing. */
  lemma RewritingIsIdentity(maps: PinnedMaps, name: MapName, key: Frame, value: Frame)
    ensures Has(maps, name, key, value) ==> WithEntry(maps, name, key, value) == maps
  {
    if Has(maps, name, key, value) {
      assert maps[name].entries[key := value] == maps[name].entries;
    }
  }

  class MapWriter {
    const host: Host

    constructor (host: Host)
      ensures this.host == host
    {
      this.host := host;
    }

    /** `MapWriter.Ensure`: an equal entry is left alone. */
    method Ensure(name: MapName, key: Frame, value: Frame, f: MapFaults) returns (w: Written)
      modifies host`maps, host`log
      ensures var maps := old(host.maps);
              && (w == Unchanged <==> Lookable(maps, name, key, value, f) && Has(maps, name, key, value))
              && (w == Updated <==>
                    Lookable(maps, name, key, value, f) && !Has(maps, name, key, value) && !f.cancelledLater
                    && !f.update)
              && (w != Failed ==> name in maps && key != [] && value != [] && !f.cancelled && !f.open && !f.lookup)
              && (w != Failed ==> key in maps[name].entries ==> |maps[name].entries[key]| == |value|)
              && host.maps == (if w == Updated then WithEntry(maps, name, key, value) else maps)
      ensures host.log == old(host.log) + if w == Updated then [Change(EntryWritten, old(host.FastPathOn()))] else []
    {
      if f.cancelled {
        return Failed;
      }
      if key == [] || value == [] {
        return Failed;
      }
      if name !in host.maps || f.open {
        return Failed;
      }
      if f.lookup {
        return Failed;
      }
      if key in host.maps[name].entries {
        var existing := host.maps[name].entries[key];
        if |existing| != |value| {
          return Failed;
        }
        if existing == value {
          return Unchanged;
        }
      }
      if f.cancelledLater || f.update {
        return Failed;
      }
      host.PutEntry(name, key, value);
      return Updated;
    }
  }

  /** `Endpoint.Validate`. */
  predicate ValidEndpoint(e: Endpoint) {
    e.uid != "" && e.node != "" && e.podIp.Some? && e.netns != 0 && e.peer.ifindex > 0 && e.host.ifindex > 0
  }

  /** `sameLinkIdentity`: the namespace path is not compared. */
  predicate SameLinkIdentity(a: Link, b: Link) {
    a.netns == b.netns && a.ifindex == b.ifindex && a.name == b.name && a.mac == b.mac
  }

  /** `sameEndpointIdentity`. */
  predicate SameEndpointIdentity(a: Endpoint, b: Endpoint) {
    && a.uid == b.uid && a.node == b.node && a.podIp == b.podIp && a.netns == b.netns
    && SameLinkIdentity(a.peer, b.peer) && SameLinkIdentity(a.host, b.host)
  }

  /** The endpoint is the one desired under its UID. */
  predicate CurrentEndpoint(desired: DesiredState, e: Endpoint) {
    e.uid in desired.endpoints && SameEndpointIdentity(desired.endpoints[e.uid], e)
  }

  predicate UnderlayComplete(desired: DesiredState) {
    desired.underlay.ifindex > 0 && |desired.underlay.mac| == 6 && desired.underlayIp.Some?
  }

  predicate SchemaSeen(actual: ActualState, name: MapName)
    requires name in SCHEMA
  {
    name in actual.maps && actual.maps[name].keySize == SCHEMA[name].keySize
    && actual.maps[name].valueSize == SCHEMA[name].valueSize && actual.maps[name].maxEntries == SCHEMA[name].maxEntries
  }

  /** The scan shows both maps with the sizes of the layouts. */
  predicate SizesSeen(actual: ActualState) {
    && IngressCache in actual.maps && Devmap in actual.maps
    && actual.maps[IngressCache] == MapState(actual.maps[IngressCache].id, 4, 16, 1024)
    && actual.maps[Devmap] == MapState(actual.maps[Devmap].id, 4, 12, 8)
  }

  /** What has to hold before the entries are written. */
  predicate Encodable(desired: DesiredState, e: Endpoint) {
    && CurrentEndpoint(desired, e) && ValidEndpoint(e) && |e.peer.mac| == 6 && |e.host.mac| == 6
    && UnderlayComplete(desired)
  }

  /** That is: the endpoint is the desired one, apart from the paths of its namespaces, and it
      and the underlay are complete. */
  lemma EncodableMeans(desired: DesiredState, e: Endpoint)
    ensures Encodable(desired, e) <==>
            && e.uid in desired.endpoints
            && var d := desired.endpoints[e.uid];
            && e == d.(peer := d.peer.(path := e.peer.path), host := d.host.(path := e.host.path))
            && e.uid != "" && e.node != "" && e.podIp.Some? && e.netns != 0
            && e.peer.ifindex > 0 && |e.peer.mac| == 6 && e.host.ifindex > 0 && |e.host.mac| == 6
            && desired.underlay.ifindex > 0 && |desired.underlay.mac| == 6 && desired.underlayIp.Some?
  {
  }

  /** The endpoint's two entries are in the maps. */
  predicate EntriesPresent(order: Endian, maps: PinnedMaps, desired: DesiredState, e: Endpoint)
    requires Encodable(desired, e)
  {
    && Has(maps, IngressCache, e.podIp.value, IngressValue(order, e))
    && Has(maps, Devmap, DeviceKey(order, desired.underlay), DeviceValue(desired.underlay, desired.underlayIp.value))
  }

  /** The endpoint's entries can be written: what is under its keys has the right size. */
  predicate EntriesFit(order: Endian, maps: PinnedMaps, desired: DesiredState, e: Endpoint) {
    && Encodable(desired, e)
    && Fits(maps, IngressCache, e.podIp.value, 16) && Fits(maps, Devmap, DeviceKey(order, desired.underlay), 12)
  }

  predicate Fits(maps: PinnedMaps, name: MapName, key: Frame, size: nat) {
    name in maps && (key in maps[name].entries ==> |maps[name].entries[key]| == size)
  }

  /** The maps with the endpoint's ingress entry, then its device entry. */
  function WithIngress(order: Endian, maps: PinnedMaps, e: Endpoint): PinnedMaps
    requires IngressCache in maps && e.podIp.Some? && |e.peer.mac| == 6 && |e.host.mac| == 6
  {
    WithEntry(maps, IngressCache, e.podIp.value, IngressValue(order, e))
  }

  function WithDevice(order: Endian, maps: PinnedMaps, desired: DesiredState): PinnedMaps
    requires Devmap in maps && |desired.underlay.mac| == 6 && desired.underlayIp.Some?
  {
    WithEntry(maps, Devmap, DeviceKey(order, desired.underlay), DeviceValue(desired.underlay, desired.underlayIp.value))
  }

  class MapEnsurer {
    const host: Host
    const store: MapWriter
    const order: Endian

    constructor (host: Host, order: Endian)
      ensures this.host == host && store.host == host && this.order == order
    {
      this.host := host;
      this.order := order;
      store := new MapWriter(host);
    }

    predicate Valid() {
      store.host == host
    }

    /** `EnsureEndpointMaps`: nothing is written while the caller says the fast path is on,
        and on success both entries are in place. */
    method EnsureEndpointMaps(desired: DesiredState, actual: ActualState, e: Endpoint, fastPathDisabled: bool,
                              f: MapFaults, g: MapFaults) returns (changed: bool, ok: bool)
      requires Valid()
      modifies host`maps, host`log
      ensures !desired.enabled || !fastPathDisabled || !Encodable(desired, e) ==>
                host.maps == old(host.maps) && host.log == old(host.log) && !changed
      ensures ok && desired.enabled ==>
                && fastPathDisabled && EntriesFit(order, old(host.maps), desired, e)
                && IngressCache in old(host.maps) && Devmap in old(host.maps)
                && host.maps == WithDevice(order, WithIngress(order, old(host.maps), e), desired)
                && EntriesPresent(order, host.maps, desired, e)
                && (changed <==> !EntriesPresent(order, old(host.maps), desired, e))
      ensures ok && desired.enabled ==> SizesSeen(actual)
      ensures !desired.enabled ==> !changed && (ok <==> !f.cancelled)
      ensures ok ==> !f.cancelled
      ensures host.maps == old(host.maps)
              || (Encodable(desired, e) && IngressCache in old(host.maps)
                  && host.maps == WithIngress(order, old(host.maps), e))
              || (Encodable(desired, e) && IngressCache in old(host.maps) && Devmap in old(host.maps)
                  && host.maps == WithDevice(order, WithIngress(order, old(host.maps), e), desired))
      ensures !changed ==> host.maps == old(host.maps) && host.log == old(host.log)
      ensures Encodable(desired, e) && EntriesPresent(order, old(host.maps), desired, e) ==> !changed
      ensures desired.enabled && fastPathDisabled && f == NO_MAP_FAULTS && g == NO_MAP_FAULTS ==>
                (ok <==> SchemaSeen(actual, IngressCache) && SchemaSeen(actual, Devmap)
                         && EntriesFit(order, old(host.maps), desired, e))
      ensures !old(host.FastPathOn()) ==> MadeWhileOff(old(host.log), host.log)
    {
      changed, ok := false, false;
      if f.cancelled {
        return;
      }
      if !desired.enabled {
        return false, true;
      }
      if !fastPathDisabled {
        return;
      }
      if !CurrentEndpoint(desired, e) || !ValidEndpoint(e) {
        return;
      }
      if !SchemaSeen(actual, IngressCache) || !SchemaSeen(actual, Devmap) {
        return;
      }
      if |e.peer.mac| != 6 || |e.host.mac| != 6 {
        return;
      }
      if !UnderlayComplete(desired) {
        return;
      }
      changed, ok := WriteBoth(desired, e, f, g);
    }

    /** The two writes, the endpoint's entry first. */
    method WriteBoth(desired: DesiredState, e: Endpoint, f: MapFaults, g: MapFaults) returns (changed: bool, ok: bool)
      requires Valid() && Encodable(desired, e)
      modifies host`maps, host`log
      ensures ok ==>
                && EntriesFit(order, old(host.maps), desired, e)
                && host.maps == WithDevice(order, WithIngress(order, old(host.maps), e), desired)
                && EntriesPresent(order, host.maps, desired, e)
                && (changed <==> !EntriesPresent(order, old(host.maps), desired, e))
      ensures host.maps == old(host.maps)
              || (IngressCache in old(host.maps) && host.maps == WithIngress(order, old(host.maps), e))
              || (IngressCache in old(host.maps) && Devmap in old(host.maps)
                  && host.maps == WithDevice(order, WithIngress(order, old(host.maps), e), desired))
      ensures !changed ==> host.maps == old(host.maps) && host.log == old(host.log)
      ensures EntriesPresent(order, old(host.maps), desired, e) ==> !changed
      ensures f == NO_MAP_FAULTS && g == NO_MAP_FAULTS ==> (ok <==> EntriesFit(order, old(host.maps), desired, e))
      ensures !old(host.FastPathOn()) ==> MadeWhileOff(old(host.log), host.log)
    {
      changed, ok := false, false;
      var ingressKey, ingressValue := EncodeIngressEntry(order, e);
      var deviceKey, deviceValue := EncodeDeviceEntry(order, desired.underlay, desired.underlayIp.value);
      var w := store.Ensure(IngressCache, ingressKey, ingressValue, f);
      if w == Failed {
        return;
      }
      RewritingIsIdentity(old(host.maps), IngressCache, ingressKey, ingressValue);
      ghost var between := host.maps;
      assert between == WithIngress(order, old(host.maps), e);
      changed := w == Updated;
      w := store.Ensure(Devmap, deviceKey, deviceValue, g);
      if w == Failed {
        return;
      }
      RewritingIsIdentity(between, Devmap, deviceKey, deviceValue);
      assert host.maps == WithDevice(order, between, desired);
      changed := changed || w == Updated;
      ok := true;
    }
  }
}
