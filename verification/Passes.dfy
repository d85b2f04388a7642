/** What the ensure passes keep, and what a host looks like after them. */
module Passes {
  import opened Wrappers
  import opened Bytes
  import opened Kernel
  import opened Links
  import opened Observation
  import opened PinManager
  import opened Ensurers
  import opened MapEnsure
  import Order

  /** Maps differ at most in the entries of the endpoint and device maps. */
  ghost predicate EntriesOnly(a: PinnedMaps, b: PinnedMaps) {
    && a.Keys <= b.Keys
    && forall name :: name in a ==>
         && b[name].id == a[name].id && b[name].descriptor == a[name].descriptor
         && (name != IngressCache && name != Devmap ==> b[name] == a[name])
  }

  /** The same maps, whatever their entries. */
  ghost predicate SameShape(a: PinnedMaps, b: PinnedMaps) {
    && a.Keys == b.Keys
    && forall name :: name in a ==> b[name].id == a[name].id && b[name].descriptor == a[name].descriptor
  }

  /** The endpoint's keys hold values of the right size. */
  predicate EntriesHeld(order: Endian, maps: PinnedMaps, desired: DesiredState, e: Endpoint) {
    && Encodable(desired, e)
    && IngressCache in maps && e.podIp.value in maps[IngressCache].entries
    && |maps[IngressCache].entries[e.podIp.value]| == 16
    && Has(maps, Devmap, DeviceKey(order, desired.underlay), DeviceValue(desired.underlay, desired.underlayIp.value))
  }

  /** The endpoint's filters are established, too. */
  predicate Held(order: Endian, pins: Pins, desired: DesiredState, e: Endpoint) {
    EntriesHeld(order, pins.maps, desired, e) && EndpointSettled(pins.filters, pins.programs, e)
  }

  /** Nothing stands in the way of the endpoint's turn. */
  predicate Feasible(order: Endian, pins: Pins, desired: DesiredState, e: Endpoint) {
    EntriesFit(order, pins.maps, desired, e) && EndpointAttachable(pins.filters, pins.programs, e)
  }

  predicate AllFeasible(order: Endian, pins: Pins, desired: DesiredState) {
    forall uid :: uid in desired.endpoints ==> Feasible(order, pins, desired, desired.endpoints[uid])
  }

  lemma HeldIsFeasible(order: Endian, pins: Pins, desired: DesiredState, e: Endpoint)
    requires Held(order, pins, desired, e)
    ensures Feasible(order, pins, desired, e)
  {
  }

  /** Both entries of the endpoint have been written. */
  predicate BothWritten(order: Endian, desired: DesiredState, a: PinnedMaps, b: PinnedMaps, e: Endpoint) {
    && Encodable(desired, e) && IngressCache in a && Devmap in a
    && b == WithDevice(order, WithIngress(order, a, e), desired)
    && EntriesPresent(order, b, desired, e)
  }

  predicate Exact(order: Endian, maps: PinnedMaps, desired: DesiredState, e: Endpoint) {
    Encodable(desired, e) && EntriesPresent(order, maps, desired, e)
  }

  predicate AllExact(order: Endian, maps: PinnedMaps, desired: DesiredState) {
    forall uid :: uid in desired.endpoints ==> Exact(order, maps, desired, desired.endpoints[uid])
  }

  /** No two endpoints claim one address with different entries. */
  predicate NoAddressClash(order: Endian, desired: DesiredState) {
    forall u, v :: u in desired.endpoints && v in desired.endpoints ==>
      Agree(order, desired.endpoints[u], desired.endpoints[v])
  }

  predicate Agree(order: Endian, d: Endpoint, e: Endpoint) {
    d.podIp == e.podIp && |d.peer.mac| == |d.host.mac| == |e.peer.mac| == |e.host.mac| == 6 ==>
      IngressValue(order, d) == IngressValue(order, e)
  }

  lemma ExactMeansNoClash(order: Endian, maps: PinnedMaps, desired: DesiredState)
    requires AllExact(order, maps, desired)
    ensures NoAddressClash(order, desired)
  {
    forall u, v | u in desired.endpoints && v in desired.endpoints
      ensures Agree(order, desired.endpoints[u], desired.endpoints[v])
    {
      assert Exact(order, maps, desired, desired.endpoints[u]) && Exact(order, maps, desired, desired.endpoints[v]);
    }
  }

  /** The host as a successful ensure pass leaves it. */
  predicate Settled(order: Endian, pins: Pins, desired: DesiredState, links: seq<Link>) {
    && Readable(pins) && Reachable(Visited(links, {}))
    && desired.markerSupported && pins.marker
    && BaseSettled(pins.filters, pins.programs, desired)
    && AllHeld(order, pins, desired)
  }

  /** The host as a run that gets past verification leaves it. */
  predicate Stable(order: Endian, pins: Pins, desired: DesiredState, links: seq<Link>) {
    Settled(order, pins, desired, links) && Verified(desired, ScanOf(pins, links))
  }

  /** A scan's programs are those pinned. */
  ghost predicate Sees(current: ActualState, programs: PinnedPrograms) {
    forall name :: name in REQUIRED_PROGRAMS ==>
      && (name in current.programs <==> name in programs)
      && (name in programs ==> current.programs[name] == Reported(programs[name]))
  }

  lemma ScanSees(pins: Pins, links: seq<Link>)
    ensures Sees(ScanOf(pins, links), pins.programs)
  {
  }

  /** There is a filter on the interface of an attachment, at its hook, priority and handle. */
  predicate Backs(filters: FilterLists, a: Attachment) {
    exists f :: f in FiltersAt(filters, a.link) && f.hook == a.hook && f.priority == a.priority && f.handle == a.handle
  }

  /** All that a scan shows is there. */
  ghost predicate Truthful(current: ActualState, filters: FilterLists) {
    forall i :: 0 <= i < |current.attachments| ==> Backs(filters, current.attachments[i])
  }

  lemma ScanIsTruthful(pins: Pins, links: seq<Link>)
    ensures Truthful(ScanOf(pins, links), pins.filters)
  {
    var v := Visited(links, {});
    var shown := AttachmentsOn(pins.filters, v);
    forall i | 0 <= i < |shown|
      ensures Backs(pins.filters, shown[i])
    {
      var j, f := ReadBack(pins.filters, v, i);
    }
  }

  lemma StillTruthful(current: ActualState, before: FilterLists, after: FilterLists)
    requires Truthful(current, before) && FiltersGrown(before, after)
    ensures Truthful(current, after)
  {
    forall i | 0 <= i < |current.attachments|
      ensures Backs(after, current.attachments[i])
    {
      var a := current.attachments[i];
      assert Backs(before, a) && GrownAt(before, after, Key(a.link));
      var f :| f in FiltersAt(before, a.link) && f.hook == a.hook && f.priority == a.priority && f.handle == a.handle;
      assert f in multiset(FiltersAt(before, a.link)) && f in multiset(FiltersAt(after, a.link));
    }
  }

  /** What the scan shows is under no free handle. */
  lemma ShownIsNotVacant(current: ActualState, filters: FilterLists, link: Link, program: ProgramName)
    requires Truthful(current, filters) && AttachmentVerified(current, link, program)
    ensures !Vacant(filters, current.programs, link, program)
  {
    var spec := Wanted(current.programs, link, program).value;
    var i :| 0 <= i < |current.attachments| && Matches(current.attachments[i], spec);
    var a := current.attachments[i];
    assert Backs(filters, a);
    var f :| f in FiltersAt(filters, a.link) && f.hook == a.hook && f.priority == a.priority && f.handle == a.handle;
    assert f in FiltersAt(filters, spec.link);
  }

  /** A scan that speaks for the host: its programs are those pinned, and its attachments are
      there. */
  ghost predicate SpeaksFor(current: ActualState, pins: Pins) {
    Sees(current, pins.programs) && Truthful(current, pins.filters)
  }

  lemma StillSpeaks(current: ActualState, a: HostState, b: HostState)
    requires SpeaksFor(current, a.pins) && Gentle(a, b)
    ensures SpeaksFor(current, b.pins)
  {
    StillTruthful(current, a.pins.filters, b.pins.filters);
  }

  lemma SameWanted(current: ActualState, programs: PinnedPrograms, link: Link, program: ProgramName)
    requires Sees(current, programs) && program in REQUIRED_PROGRAMS
    ensures Wanted(current.programs, link, program) == Wanted(programs, link, program)
  {
  }

  lemma SameAttachable(current: ActualState, programs: PinnedPrograms,
                       before: FilterLists, after: FilterLists)
    requires Sees(current, programs) && KeepsAttachable(current.programs, before, after)
    ensures KeepsAttachable(programs, before, after)
  {
    forall link, program
      ensures Attachable(before, programs, link, program) <==> Attachable(after, programs, link, program)
    {
      if program in REQUIRED_PROGRAMS {
        SameWanted(current, programs, link, program);
        assert Attachable(before, current.programs, link, program) <==>
               Attachable(after, current.programs, link, program);
      }
    }
  }

  lemma SameBase(current: ActualState, programs: PinnedPrograms, filters: FilterLists, desired: DesiredState)
    requires Sees(current, programs)
    ensures BaseSettled(filters, current.programs, desired) <==> BaseSettled(filters, programs, desired)
    ensures BaseAttachable(filters, current.programs, desired) <==> BaseAttachable(filters, programs, desired)
  {
    SameWanted(current, programs, desired.underlay, TcInitE);
    SameWanted(current, programs, desired.underlay, TcRestore);
  }

  lemma SameSettled(current: ActualState, programs: PinnedPrograms, filters: FilterLists, e: Endpoint)
    requires Sees(current, programs)
    ensures EndpointSettled(filters, current.programs, e) <==> EndpointSettled(filters, programs, e)
    ensures EndpointAttachable(filters, current.programs, e) <==> EndpointAttachable(filters, programs, e)
  {
    SameWanted(current, programs, e.peer, TcInitIn);
    SameWanted(current, programs, e.host, TcMasq);
  }

  /** A stable host offers the endpoint passes all they look for. */
  lemma StableIsReady(order: Endian, pins: Pins, desired: DesiredState, links: seq<Link>)
    requires Stable(order, pins, desired, links)
    ensures var current := ScanOf(pins, links);
            && CollectionReady(current) && Available(order, pins, desired, links)
            && NodeSettled(pins, current, desired) && AllSettled(pins, current, desired)
  {
    VerifiedIsReady(pins, links);
    var current := ScanOf(pins, links);
    assert MapVerified(current.maps, IngressCache) && MapVerified(current.maps, Devmap);
    forall uid | uid in desired.endpoints
      ensures Held(order, pins, desired, desired.endpoints[uid])
              && Feasible(order, pins, desired, desired.endpoints[uid])
    {
      HeldIsFeasible(order, pins, desired, desired.endpoints[uid]);
    }
  }

  /** Scans do not look at map entries. */
  lemma ScanIgnoresEntries(a: Pins, b: Pins, links: seq<Link>)
    requires SameShape(a.maps, b.maps)
    requires a.programs == b.programs && a.filters == b.filters && a.marker == b.marker
    ensures ScanOf(a, links) == ScanOf(b, links)
    ensures Readable(a) <==> Readable(b)
  {
  }

  /** Writing another endpoint's entries keeps an endpoint held. */
  lemma HeldKept(order: Endian, pins: Pins, filters: FilterLists, desired: DesiredState, d: Endpoint, e: Endpoint)
    requires Encodable(desired, e) && IngressCache in pins.maps && Devmap in pins.maps
    requires Held(order, pins, desired, d) && KeepsEstablished(pins.filters, filters)
    ensures var maps := WithDevice(order, WithIngress(order, pins.maps, e), desired);
            Held(order, pins.(maps := maps, filters := filters), desired, d)
  {
    SettledKept(pins.filters, filters, pins.programs, d.peer, TcInitIn);
    SettledKept(pins.filters, filters, pins.programs, d.host, TcMasq);
  }

  lemma WritesEntriesOnly(order: Endian, maps: PinnedMaps, desired: DesiredState, e: Endpoint)
    requires Encodable(desired, e) && IngressCache in maps
    ensures EntriesOnly(maps, WithIngress(order, maps, e)) && WithIngress(order, maps, e).Keys == maps.Keys
    ensures Devmap in maps ==>
              var after := WithDevice(order, WithIngress(order, maps, e), desired);
              EntriesOnly(maps, after) && after.Keys == maps.Keys
  {
  }

  /** What the scan in force has to show before an endpoint can be ensured. */
  predicate Ensurable(current: ActualState) {
    EndpointAvailable(current) && SchemaSeen(current, IngressCache) && SchemaSeen(current, Devmap)
  }

  predicate AllHeld(order: Endian, pins: Pins, desired: DesiredState) {
    forall uid :: uid in desired.endpoints ==> Held(order, pins, desired, desired.endpoints[uid])
  }

  /** The scan shows the node's filters, and they are established. */
  predicate NodeSettled(pins: Pins, current: ActualState, desired: DesiredState) {
    BaseSettled(pins.filters, pins.programs, desired) && NodeVerified(current, desired)
  }

  /** Nothing stands in the way of a pass that starts from the scan. */
  predicate PassReady(order: Endian, pins: Pins, current: ActualState, desired: DesiredState) {
    && BaseAvailable(current) && (desired.endpoints.Keys != {} ==> Ensurable(current))
    && BaseAttachable(pins.filters, pins.programs, desired) && AllFeasible(order, pins, desired)
  }

  predicate Available(order: Endian, pins: Pins, desired: DesiredState, links: seq<Link>) {
    Readable(pins) && Reachable(Visited(links, {})) && PassReady(order, pins, ScanOf(pins, links), desired)
  }

  /** The host between the marker step and the second scan, if all goes well: loaded if it
      was not ready, and marked. */
  function Expected(pins: Pins, ready: bool, ids: KernelIds): Pins {
    (if ready then pins else AfterLoad(pins, V1_SCHEMA, ids.programs, ids.maps)).(marker := true)
  }

  predicate AllSettled(pins: Pins, current: ActualState, desired: DesiredState) {
    forall uid :: uid in desired.endpoints ==>
      && EndpointSettled(pins.filters, pins.programs, desired.endpoints[uid])
      && EndpointVerified(current, desired.endpoints[uid])
  }

  /** What the endpoint passes do to the host at most: filters are added, entries are
      written, and, if the fast path is off, all of it is done with the fast path off. */
  ghost predicate Gentle(a: HostState, b: HostState) {
    && b == a.(pins := a.pins.(filters := b.pins.filters, maps := b.pins.maps), log := b.log)
    && FiltersPreserved(a.pins.programs, a.pins.filters, b.pins.filters)
    && KeepsAttachable(a.pins.programs, a.pins.filters, b.pins.filters)
    && EntriesOnly(a.pins.maps, b.pins.maps) && a.pins.maps.Keys == b.pins.maps.Keys
    && (!a.On() ==> MadeWhileOff(a.log, b.log))
  }

  lemma GentleTransitive(a: HostState, b: HostState, c: HostState)
    requires Gentle(a, b) && Gentle(b, c)
    ensures Gentle(a, c)
  {
    PreservedTransitive(a.pins.programs, a.pins.programs, a.pins.filters, b.pins.filters, c.pins.filters);
  }

  lemma GentleByFilters(a: HostState, b: HostState)
    requires b == a.(pins := a.pins.(filters := b.pins.filters), log := b.log)
    requires FiltersPreserved(a.pins.programs, a.pins.filters, b.pins.filters)
    requires KeepsAttachable(a.pins.programs, a.pins.filters, b.pins.filters)
    requires !a.On() ==> MadeWhileOff(a.log, b.log)
    ensures Gentle(a, b)
  {
  }

  lemma GentleByEntries(a: HostState, b: HostState)
    requires b == a.(pins := a.pins.(maps := b.pins.maps), log := b.log)
    requires EntriesOnly(a.pins.maps, b.pins.maps) && a.pins.maps.Keys == b.pins.maps.Keys
    requires !a.On() ==> MadeWhileOff(a.log, b.log)
    ensures Gentle(a, b)
  {
    PreservedReflexive(a.pins.programs, a.pins.filters);
  }

  /** Writing an endpoint's entries, one or both, is gentle. */
  lemma GentleByWrites(order: Endian, a: HostState, b: HostState, desired: DesiredState, e: Endpoint)
    requires b == a.(pins := a.pins.(maps := b.pins.maps), log := b.log)
    requires b.pins.maps == a.pins.maps
             || (Encodable(desired, e) && IngressCache in a.pins.maps
                 && b.pins.maps == WithIngress(order, a.pins.maps, e))
             || (Encodable(desired, e) && IngressCache in a.pins.maps && Devmap in a.pins.maps
                 && b.pins.maps == WithDevice(order, WithIngress(order, a.pins.maps, e), desired))
    requires !a.On() ==> MadeWhileOff(a.log, b.log)
    ensures Gentle(a, b)
  {
    if Encodable(desired, e) && IngressCache in a.pins.maps {
      WritesEntriesOnly(order, a.pins.maps, desired, e);
    }
    GentleByEntries(a, b);
  }

  lemma GentleReflexive(a: HostState)
    ensures Gentle(a, a)
  {
    PreservedReflexive(a.pins.programs, a.pins.filters);
  }

  /** One endpoint's turn, seen by all the others. */
  lemma TurnKeepsTheOthers(order: Endian, pins: Pins, filters: FilterLists, desired: DesiredState, e: Endpoint)
    requires EntriesFit(order, pins.maps, desired, e) && KeepsEstablished(pins.filters, filters)
    ensures var maps := WithDevice(order, WithIngress(order, pins.maps, e), desired);
            forall uid :: uid in desired.endpoints ==>
              var d := desired.endpoints[uid];
              && (Held(order, pins, desired, d) ==> Held(order, pins.(maps := maps, filters := filters), desired, d))
              && (Agree(order, d, e) && Exact(order, pins.maps, desired, d) ==> Exact(order, maps, desired, d))
  {
    var maps := WithDevice(order, WithIngress(order, pins.maps, e), desired);
    forall uid | uid in desired.endpoints
      ensures var d := desired.endpoints[uid];
              && (Held(order, pins, desired, d) ==> Held(order, pins.(maps := maps, filters := filters), desired, d))
              && (Agree(order, d, e) && Exact(order, pins.maps, desired, d) ==> Exact(order, maps, desired, d))
    {
      var d := desired.endpoints[uid];
      if Held(order, pins, desired, d) {
        HeldKept(order, pins, filters, desired, d, e);
      }
    }
  }

  /** A turn changes nothing for the feasibility of the others, one way or the other. */
  lemma TurnKeepsFeasible(order: Endian, desired: DesiredState, a: Pins, b: Pins, e: Endpoint, changed: bool)
    requires Turn(order, desired, a, b, e, changed)
    ensures AllFeasible(order, a, desired) <==> AllFeasible(order, b, desired)
  {
    forall uid | uid in desired.endpoints
      ensures Feasible(order, a, desired, desired.endpoints[uid]) <==>
              Feasible(order, b, desired, desired.endpoints[uid])
    {
      FitKept(order, a.maps, desired, desired.endpoints[uid], e);
    }
  }

  lemma FitKept(order: Endian, maps: PinnedMaps, desired: DesiredState, d: Endpoint, e: Endpoint)
    requires EntriesFit(order, maps, desired, e)
    ensures EntriesFit(order, maps, desired, d) <==>
            EntriesFit(order, WithDevice(order, WithIngress(order, maps, e), desired), desired, d)
  {
  }

  /** A successful turn: the endpoint's filters are established and both its entries written. */
  ghost predicate Turn(order: Endian, desired: DesiredState, a: Pins, b: Pins, e: Endpoint, changed: bool) {
    && KeepsEstablished(a.filters, b.filters) && KeepsAttachable(a.programs, a.filters, b.filters)
    && a.programs == b.programs && a.marker == b.marker
    && EndpointSettled(b.filters, b.programs, e)
    && EntriesFit(order, a.maps, desired, e) && BothWritten(order, desired, a.maps, b.maps, e)
    && (!changed ==> b == a)
  }

  // ---- The map entries a pass leaves ----

  /** The maps after one endpoint's turn. */
  function Put(order: Endian, maps: PinnedMaps, desired: DesiredState, e: Endpoint): PinnedMaps {
    if Encodable(desired, e) && IngressCache in maps && Devmap in maps
    then WithDevice(order, WithIngress(order, maps, e), desired)
    else maps
  }

  /** The maps after the turns of a list of endpoints. */
  function AllPut(order: Endian, maps: PinnedMaps, desired: DesiredState, uids: seq<string>): PinnedMaps
    requires forall uid :: uid in uids ==> uid in desired.endpoints
  {
    if uids == [] then maps
    else Put(order, AllPut(order, maps, desired, uids[..|uids| - 1]), desired, desired.endpoints[uids[|uids| - 1]])
  }

  /** A pass turns `a` into `b`: later UIDs have the last word on an address. */
  ghost predicate AfterPass(order: Endian, a: PinnedMaps, b: PinnedMaps, desired: DesiredState) {
    exists uids :: PassOver(order, a, b, desired, uids)
  }

  ghost predicate PassOver(order: Endian, a: PinnedMaps, b: PinnedMaps, desired: DesiredState, uids: seq<string>) {
    Order.SortedKeys(uids, desired.endpoints.Keys) && b == AllPut(order, a, desired, uids)
  }

  /** Another pass would leave the entries as they are. */
  ghost predicate Refreshed(order: Endian, maps: PinnedMaps, desired: DesiredState) {
    AfterPass(order, maps, maps, desired)
  }

  /** What the last endpoint in a list with an address writes under it. */
  function LastWord(order: Endian, desired: DesiredState, uids: seq<string>, ip: Frame): Option<Frame>
    requires forall uid :: uid in uids ==> uid in desired.endpoints
  {
    if uids == [] then None
    else
      var e := desired.endpoints[uids[|uids| - 1]];
      if Encodable(desired, e) && e.podIp.value == ip then Some(IngressValue(order, e))
      else LastWord(order, desired, uids[..|uids| - 1], ip)
  }

  lemma PutShape(order: Endian, maps: PinnedMaps, desired: DesiredState, e: Endpoint)
    requires IngressCache in maps && Devmap in maps
    ensures var after := Put(order, maps, desired, e);
            && EntriesOnly(maps, after) && after.Keys == maps.Keys
            && after[Devmap] == if Encodable(desired, e) then WithDevice(order, maps, desired)[Devmap] else maps[Devmap]
  {
  }

  predicate AnyEncodable(desired: DesiredState, uids: seq<string>)
    requires forall uid :: uid in uids ==> uid in desired.endpoints
  {
    exists uid :: uid in uids && Encodable(desired, desired.endpoints[uid])
  }

  lemma AnyEncodableStep(desired: DesiredState, uids: seq<string>)
    requires uids != [] && forall uid :: uid in uids ==> uid in desired.endpoints
    ensures AnyEncodable(desired, uids) <==>
            AnyEncodable(desired, uids[..|uids| - 1]) || Encodable(desired, desired.endpoints[uids[|uids| - 1]])
  {
    var front, last := uids[..|uids| - 1], uids[|uids| - 1];
    assert forall uid :: uid in uids <==> uid in front || uid == last;
  }

  /** A pass writes to two maps only; the device map gets the underlay's entry if any
      endpoint can be encoded. */
  lemma {:induction false} AllPutShape(order: Endian, maps: PinnedMaps, desired: DesiredState, uids: seq<string>)
    requires forall uid :: uid in uids ==> uid in desired.endpoints
    requires IngressCache in maps && Devmap in maps
    ensures var after := AllPut(order, maps, desired, uids);
            && EntriesOnly(maps, after) && after.Keys == maps.Keys
            && after[Devmap] == if AnyEncodable(desired, uids) then WithDevice(order, maps, desired)[Devmap]
                                else maps[Devmap]
  {
    if uids != [] {
      var front, last := uids[..|uids| - 1], uids[|uids| - 1];
      AllPutShape(order, maps, desired, front);
      PutShape(order, AllPut(order, maps, desired, front), desired, desired.endpoints[last]);
      AnyEncodableStep(desired, uids);
    }
  }

  predicate SameAt(a: PinnedMaps, b: PinnedMaps, ip: Frame)
    requires IngressCache in a && IngressCache in b
  {
    && (ip in b[IngressCache].entries <==> ip in a[IngressCache].entries)
    && (ip in b[IngressCache].entries ==> b[IngressCache].entries[ip] == a[IngressCache].entries[ip])
  }

  /** Address by address, the maps after a pass: the last word on the address, or what was there. */
  lemma {:induction false} AllPutReads(order: Endian, maps: PinnedMaps, desired: DesiredState, uids: seq<string>,
                                       ip: Frame)
    requires forall uid :: uid in uids ==> uid in desired.endpoints
    requires IngressCache in maps && Devmap in maps
    ensures var after := AllPut(order, maps, desired, uids);
            && IngressCache in after && Devmap in after
            && match LastWord(order, desired, uids, ip)
               case Some(v) => Has(after, IngressCache, ip, v)
               case None => SameAt(maps, after, ip)
  {
    if uids != [] {
      AllPutReads(order, maps, desired, uids[..|uids| - 1], ip);
    }
  }

  lemma TwoMapsDecide(a: PinnedMaps, b: PinnedMaps)
    requires EntriesOnly(a, b) && a.Keys == b.Keys && IngressCache in a && Devmap in a
    requires a[IngressCache].entries == b[IngressCache].entries && a[Devmap] == b[Devmap]
    ensures a == b
  {
  }

  /** An address's last word is the same the second time. */
  lemma AddressesAgain(order: Endian, maps: PinnedMaps, desired: DesiredState, uids: seq<string>)
    requires forall uid :: uid in uids ==> uid in desired.endpoints
    requires IngressCache in maps && Devmap in maps
    ensures var after := AllPut(order, maps, desired, uids);
            && IngressCache in after && Devmap in after
            && var again := AllPut(order, after, desired, uids);
            IngressCache in again && again[IngressCache].entries == after[IngressCache].entries
  {
    AllPutReads(order, maps, desired, uids, []);
    var after := AllPut(order, maps, desired, uids);
    AllPutReads(order, after, desired, uids, []);
    var again := AllPut(order, after, desired, uids);
    forall ip: Frame
      ensures ip in again[IngressCache].entries <==> ip in after[IngressCache].entries
      ensures ip in again[IngressCache].entries ==> again[IngressCache].entries[ip] == after[IngressCache].entries[ip]
    {
      AllPutReads(order, maps, desired, uids, ip);
      AllPutReads(order, after, desired, uids, ip);
    }
  }

  /** A second pass over its own result changes nothing, whoever shares an address. */
  lemma PassIsIdempotent(order: Endian, maps: PinnedMaps, desired: DesiredState, uids: seq<string>)
    requires forall uid :: uid in uids ==> uid in desired.endpoints
    ensures var after := AllPut(order, maps, desired, uids);
            AllPut(order, after, desired, uids) == after
  {
    if IngressCache in maps && Devmap in maps {
      AddressesAgain(order, maps, desired, uids);
      AllPutShape(order, maps, desired, uids);
      var after := AllPut(order, maps, desired, uids);
      AllPutShape(order, after, desired, uids);
      if AnyEncodable(desired, uids) {
        RewritingIsIdentity(after, Devmap, DeviceKey(order, desired.underlay),
                            DeviceValue(desired.underlay, desired.underlayIp.value));
      }
      TwoMapsDecide(after, AllPut(order, after, desired, uids));
    } else {
      NothingPut(order, maps, desired, uids);
    }
  }

  lemma {:induction false} NothingPut(order: Endian, maps: PinnedMaps, desired: DesiredState, uids: seq<string>)
    requires forall uid :: uid in uids ==> uid in desired.endpoints
    requires !(IngressCache in maps && Devmap in maps)
    ensures AllPut(order, maps, desired, uids) == maps
  {
    if uids != [] {
      NothingPut(order, maps, desired, uids[..|uids| - 1]);
    }
  }

  lemma AfterPassIsRefreshed(order: Endian, a: PinnedMaps, b: PinnedMaps, desired: DesiredState)
    requires AfterPass(order, a, b, desired)
    ensures Refreshed(order, b, desired)
  {
    var uids :| PassOver(order, a, b, desired, uids);
    PassIsIdempotent(order, a, desired, uids);
    assert PassOver(order, b, b, desired, uids);
  }

  lemma RefreshedStays(order: Endian, a: PinnedMaps, b: PinnedMaps, desired: DesiredState)
    requires Refreshed(order, a, desired) && AfterPass(order, a, b, desired)
    ensures b == a
  {
    var uids :| PassOver(order, a, a, desired, uids);
    var others :| PassOver(order, a, b, desired, others);
    Order.SortedKeysUnique(uids, others, desired.endpoints.Keys);
  }

  /** The endpoints of `done` have had their turn. */
  ghost predicate Progress(order: Endian, desired: DesiredState, was: Pins, now: Pins, done: seq<string>, changed: bool)
  {
    && was.programs == now.programs && was.marker == now.marker
    && (forall uid :: uid in done ==> uid in desired.endpoints)
    && now.maps == AllPut(order, was.maps, desired, done)
    && (forall uid :: uid in done ==>
          uid in desired.endpoints && Held(order, now, desired, desired.endpoints[uid]))
    && (AllFeasible(order, was, desired) <==> AllFeasible(order, now, desired))
    && (NoAddressClash(order, desired) || !changed ==>
          forall uid :: uid in done ==> Exact(order, now.maps, desired, desired.endpoints[uid]))
    && (!changed ==> now == was)
  }

  /** Nothing but map entries differs, and nothing at all if all entries were exact. */
  ghost predicate Quiet(order: Endian, desired: DesiredState, a: HostState, b: HostState, changed: bool) {
    && b == a.(pins := a.pins.(maps := b.pins.maps), log := b.log)
    && EntriesOnly(a.pins.maps, b.pins.maps) && a.pins.maps.Keys == b.pins.maps.Keys
    && (AllExact(order, a.pins.maps, desired) ==> !changed && b == a)
  }

  /** The endpoint passes are gentle, and quiet where all filters are settled. */
  ghost predicate Calm(order: Endian, desired: DesiredState, current: ActualState, was: HostState, now: HostState,
                       changed: bool) {
    Gentle(was, now) && (AllSettled(was.pins, current, desired) ==> Quiet(order, desired, was, now, changed))
  }

  /** The same for one endpoint's turn. */
  ghost predicate CalmTurn(order: Endian, desired: DesiredState, current: ActualState, a: HostState, b: HostState,
                           e: Endpoint, changed: bool) {
    && Gentle(a, b)
    && (EndpointSettled(a.pins.filters, a.pins.programs, e) && EndpointVerified(current, e) ==>
          && b.pins.filters == a.pins.filters
          && (Exact(order, a.pins.maps, desired, e) ==> !changed && b == a))
  }

  /** The first half of a turn: the endpoint's filters. */
  ghost predicate Filtered(current: ActualState, a: HostState, b: HostState, e: Endpoint, changed: bool) {
    && Gentle(a, b) && b.pins.maps == a.pins.maps
    && (EndpointSettled(a.pins.filters, a.pins.programs, e) ==> b == a)
    && (EndpointVerified(current, e) ==> !changed)
  }

  /** The second half: its entries. */
  ghost predicate Entered(order: Endian, desired: DesiredState, a: HostState, b: HostState, e: Endpoint,
                          changed: bool, ok: bool) {
    && Gentle(a, b) && b.pins.filters == a.pins.filters
    && (ok ==> EntriesFit(order, a.pins.maps, desired, e) && BothWritten(order, desired, a.pins.maps, b.pins.maps, e))
    && (!changed || Exact(order, a.pins.maps, desired, e) ==> !changed && b == a)
  }

  lemma HalvesMakeATurn(order: Endian, desired: DesiredState, current: ActualState, a: HostState, b: HostState,
                        c: HostState,
                        e: Endpoint, one: bool, two: bool, ok: bool)
    requires Filtered(current, a, b, e, one) && Entered(order, desired, b, c, e, two, ok)
    requires !one ==> b.pins.filters == a.pins.filters
    ensures CalmTurn(order, desired, current, a, c, e, one || two)
    ensures ok && EndpointSettled(b.pins.filters, b.pins.programs, e) ==>
              Turn(order, desired, a.pins, c.pins, e, one || two)
  {
    GentleTransitive(a, b, c);
  }

  lemma HalfATurn(order: Endian, desired: DesiredState, current: ActualState, a: HostState, b: HostState,
                  e: Endpoint, one: bool)
    requires Filtered(current, a, b, e, one)
    ensures CalmTurn(order, desired, current, a, b, e, one)
  {
  }

  lemma CalmNext(order: Endian, desired: DesiredState, current: ActualState, was: HostState, a: HostState, b: HostState,
                 uid: string, changed: bool, one: bool)
    requires uid in desired.endpoints && Calm(order, desired, current, was, a, changed)
    requires CalmTurn(order, desired, current, a, b, desired.endpoints[uid], one)
    ensures Calm(order, desired, current, was, b, changed || one)
  {
    GentleTransitive(was, a, b);
  }

  /** A turn, seen by the endpoint itself. */
  lemma TurnHolds(order: Endian, desired: DesiredState, a: Pins, b: Pins, e: Endpoint, changed: bool)
    requires Turn(order, desired, a, b, e, changed)
    ensures Held(order, b, desired, e) && Exact(order, b.maps, desired, e)
  {
  }

  lemma TurnKeepsHeld(order: Endian, desired: DesiredState, was: Pins, a: Pins, b: Pins, done: seq<string>,
                      uid: string, changed: bool, one: bool)
    requires uid in desired.endpoints && Progress(order, desired, was, a, done, changed)
    requires Turn(order, desired, a, b, desired.endpoints[uid], one)
    ensures forall u :: u in done + [uid] ==> u in desired.endpoints && Held(order, b, desired, desired.endpoints[u])
  {
    TurnKeepsTheOthers(order, a, b.filters, desired, desired.endpoints[uid]);
    assert b == a.(maps := b.maps, filters := b.filters);
    TurnHolds(order, desired, a, b, desired.endpoints[uid], one);
  }

  lemma TurnKeepsExact(order: Endian, desired: DesiredState, was: Pins, a: Pins, b: Pins, done: seq<string>,
                       uid: string, changed: bool, one: bool)
    requires uid in desired.endpoints && Progress(order, desired, was, a, done, changed)
    requires Turn(order, desired, a, b, desired.endpoints[uid], one)
    requires NoAddressClash(order, desired) || !(changed || one)
    ensures forall u :: u in done + [uid] ==>
              u in desired.endpoints && Exact(order, b.maps, desired, desired.endpoints[u])
  {
    TurnHolds(order, desired, a, b, desired.endpoints[uid], one);
    if one {
      TurnKeepsTheOthers(order, a, b.filters, desired, desired.endpoints[uid]);
    }
  }

  lemma TurnMakesProgress(order: Endian, desired: DesiredState, was: Pins, a: Pins, b: Pins, done: seq<string>,
                          uid: string, changed: bool, one: bool)
    requires uid in desired.endpoints && a.programs == b.programs
    requires Progress(order, desired, was, a, done, changed)
    requires Turn(order, desired, a, b, desired.endpoints[uid], one)
    ensures Progress(order, desired, was, b, done + [uid], changed || one)
  {
    TurnKeepsHeld(order, desired, was, a, b, done, uid, changed, one);
    if NoAddressClash(order, desired) || !(changed || one) {
      TurnKeepsExact(order, desired, was, a, b, done, uid, changed, one);
    }
    TurnKeepsFeasible(order, desired, a, b, desired.endpoints[uid], one);
    assert (done + [uid])[..|done|] == done;
    assert b.maps == Put(order, a.maps, desired, desired.endpoints[uid]);
  }

  lemma NoProgress(order: Endian, desired: DesiredState, was: Pins)
    ensures Progress(order, desired, was, was, [], false)
  {
  }

  lemma ProgressKeepsFeasible(order: Endian, desired: DesiredState, was: Pins, now: Pins, done: seq<string>,
                              changed: bool, uid: string)
    requires uid in desired.endpoints && Progress(order, desired, was, now, done, changed)
    ensures AllFeasible(order, was, desired) ==> Feasible(order, now, desired, desired.endpoints[uid])
  {
  }

  /** All endpoints have had their turn. */
  ghost predicate Complete(order: Endian, desired: DesiredState, was: Pins, now: Pins, changed: bool) {
    && AfterPass(order, was.maps, now.maps, desired)
    && AllHeld(order, now, desired)
    && (NoAddressClash(order, desired) || !changed ==> AllExact(order, now.maps, desired))
    && (!changed ==> now == was)
  }

  lemma ProgressIsComplete(order: Endian, desired: DesiredState, was: Pins, now: Pins, uids: seq<string>, changed: bool)
    requires Progress(order, desired, was, now, uids, changed) && Order.SortedKeys(uids, desired.endpoints.Keys)
    ensures Complete(order, desired, was, now, changed)
  {
    assert PassOver(order, was.maps, now.maps, desired, uids);
    assert forall uid :: uid in desired.endpoints ==> uid in uids;
  }

  /** The outcome of a successful pass over the endpoints. */
  ghost predicate Passed(order: Endian, desired: DesiredState, was: Pins, now: Pins, changed: bool) {
    && AllHeld(order, now, desired) && Refreshed(order, now.maps, desired)
    && (NoAddressClash(order, desired) || !changed ==> AllExact(order, now.maps, desired))
    && (Refreshed(order, was.maps, desired) ==> now.maps == was.maps)
    && (!changed ==> now == was)
  }

  lemma CompleteIsPassed(order: Endian, desired: DesiredState, was: Pins, now: Pins, changed: bool)
    requires Complete(order, desired, was, now, changed)
    ensures Passed(order, desired, was, now, changed)
  {
    AfterPassIsRefreshed(order, was.maps, now.maps, desired);
    if Refreshed(order, was.maps, desired) {
      RefreshedStays(order, was.maps, now.maps, desired);
    }
  }

  lemma HeldAreFeasible(order: Endian, pins: Pins, desired: DesiredState)
    requires AllHeld(order, pins, desired)
    ensures AllFeasible(order, pins, desired)
  {
    forall uid | uid in desired.endpoints
      ensures Feasible(order, pins, desired, desired.endpoints[uid])
    {
      HeldIsFeasible(order, pins, desired, desired.endpoints[uid]);
    }
  }

  lemma Prefixes<T>(s: seq<T>, i: nat)
    requires i <= |s|
    ensures i < |s| ==> s[..i + 1] == s[..i] + [s[i]]
    ensures i == |s| ==> s[..i] == s
  {
  }

  /** The endpoint passes after the node's. */
  lemma NodeThenEndpoints(desired: DesiredState, a: HostState, b: HostState, c: HostState)
    requires Gentle(a, b) && Gentle(b, c)
    ensures Gentle(a, c)
    ensures BaseSettled(b.pins.filters, b.pins.programs, desired) ==>
              BaseSettled(c.pins.filters, c.pins.programs, desired)
  {
    GentleTransitive(a, b, c);
    if BaseSettled(b.pins.filters, b.pins.programs, desired) {
      SettledKept(b.pins.filters, c.pins.filters, b.pins.programs, desired.underlay, TcInitE);
      SettledKept(b.pins.filters, c.pins.filters, b.pins.programs, desired.underlay, TcRestore);
    }
  }

  /** What was on the host is still there: every pin, every filter, the marker. Only map
      entries of the endpoint and device maps may differ. New filters run pinned programs, and
      those use the pinned maps. */
  ghost predicate Additive(a: Pins, b: Pins) {
    && FiltersPreserved(b.programs, a.filters, b.filters) && Kept(a.programs, b.programs)
    && EntriesOnly(a.maps, b.maps) && PinsLinked(V1_SCHEMA, a, b)
    && (a.marker ==> b.marker)
  }

  lemma AdditiveReflexive(a: Pins)
    ensures Additive(a, a)
  {
    PreservedReflexive(a.programs, a.filters);
  }

  /** What was there is kept, and, if the fast path is off, it stays off and everything is
      done with it off. */
  ghost predicate Careful(a: HostState, b: HostState) {
    && Additive(a.pins, b.pins) && b.ownership == a.ownership && b.published == a.published
    && (!a.On() ==> !b.On() && MadeWhileOff(a.log, b.log))
  }

  lemma CarefulReflexive(a: HostState)
    ensures Careful(a, a)
  {
    AdditiveReflexive(a.pins);
  }

  /** Loading and marking touch no filter. */
  lemma KeptIsCareful(a: HostState, b: HostState)
    requires a.pins.filters == b.pins.filters && Kept(a.pins.programs, b.pins.programs)
             && Kept(a.pins.maps, b.pins.maps)
    requires PinsLinked(V1_SCHEMA, a.pins, b.pins)
    requires (a.pins.marker ==> b.pins.marker) && a.ownership == b.ownership && a.published == b.published
    requires !a.On() ==> !b.On() && MadeWhileOff(a.log, b.log)
    ensures Careful(a, b)
  {
    PreservedReflexive(b.pins.programs, a.pins.filters);
  }

  lemma GentleIsCareful(a: HostState, b: HostState)
    requires Gentle(a, b)
    ensures Careful(a, b)
  {
  }

  lemma CarefulTransitive(a: HostState, b: HostState, c: HostState)
    requires Careful(a, b) && Careful(b, c)
    ensures Careful(a, c)
  {
    AdditiveTransitive(a.pins, b.pins, c.pins);
  }

  lemma AdditiveTransitive(a: Pins, b: Pins, c: Pins)
    requires Additive(a, b) && Additive(b, c)
    ensures Additive(a, c)
  {
    PreservedTransitive(b.programs, c.programs, a.filters, b.filters, c.filters);
    EntriesOnlyTransitive(a.maps, b.maps, c.maps);
    LinkedTransitive(a, b, c);
  }

  lemma LinkedTransitive(a: Pins, b: Pins, c: Pins)
    requires PinsLinked(V1_SCHEMA, a, b) && PinsLinked(V1_SCHEMA, b, c)
    requires Kept(a.programs, b.programs) && Kept(b.programs, c.programs) && EntriesOnly(b.maps, c.maps)
    ensures PinsLinked(V1_SCHEMA, a, c)
  {
  }

  lemma EntriesOnlyTransitive(a: PinnedMaps, b: PinnedMaps, c: PinnedMaps)
    requires EntriesOnly(a, b) && EntriesOnly(b, c)
    ensures EntriesOnly(a, c)
  {
  }

  /** A successful pass: from the expected host only filters and entries differ, and it is settled. */
  ghost predicate Done(order: Endian, expected: Pins, now: Pins, desired: DesiredState, links: seq<Link>) {
    && now == expected.(filters := now.filters, maps := now.maps)
    && FiltersPreserved(now.programs, expected.filters, now.filters)
    && EntriesOnly(expected.maps, now.maps) && now.maps.Keys == expected.maps.Keys
    && Settled(order, now, desired, links) && Refreshed(order, now.maps, desired)
  }

  lemma GentleIsDone(order: Endian, a: HostState, b: HostState, desired: DesiredState, links: seq<Link>)
    requires Gentle(a, b) && Settled(order, b.pins, desired, links) && Refreshed(order, b.pins.maps, desired)
    ensures Done(order, a.pins, b.pins, desired, links)
  {
  }

  lemma ReadableStill(b: Pins, c: Pins)
    requires EntriesOnly(b.maps, c.maps) && b.maps.Keys == c.maps.Keys
    ensures Readable(b) <==> Readable(c)
  {
  }
}
