/** When a pass that went well will also pass verification. */
module Availability {
  import opened Caches
  import opened Kernel
  import opened Links
  import opened Tc
  import opened Observation
  import opened PinManager
  import opened Ensurers
  import opened MapEnsure
  import opened Passes

  /** A scan lists the link's interface. */
  predicate Listed(links: seq<Link>, link: Link) {
    FirstWith(links, Key(link)).Some?
  }

  /** An attachment of the filter matches the wanted one; direct action is not compared. */
  predicate Shows(f: Filter, want: Filter) {
    && f.hook == want.hook && f.program == want.program && f.programId == want.programId
    && f.priority == want.priority && f.handle == want.handle
  }

  predicate ShownIn(list: seq<Filter>, want: Filter) {
    exists f :: f in list && Shows(f, want)
  }

  /** The wanted filter is there under the program's own name, or its handle is free. */
  predicate Named(pins: Pins, link: Link, program: ProgramName) {
    Wanted(pins.programs, link, program).Some? ==>
      var want := Wanted(pins.programs, link, program).value.filter;
      ShownIn(FiltersAt(pins.filters, link), want) || HandleFree(FiltersAt(pins.filters, link), want)
  }

  predicate Shown(pins: Pins, links: seq<Link>, link: Link, program: ProgramName) {
    Listed(links, link) && Named(pins, link, program)
  }

  predicate EndpointShown(pins: Pins, links: seq<Link>, e: Endpoint) {
    Shown(pins, links, e.peer, TcInitIn) && Shown(pins, links, e.host, TcMasq)
  }

  /** Nothing on the host will keep a scan after the pass from being verified. */
  predicate Presentable(pins: Pins, desired: DesiredState, links: seq<Link>) {
    && CollectionVerified(ScanOf(pins, links)) && ConflictsOn(pins.filters, Visited(links, {})) == 0
    && Shown(pins, links, desired.underlay, TcInitE) && Shown(pins, links, desired.underlay, TcRestore)
    && forall uid :: uid in desired.endpoints ==> EndpointShown(pins, links, desired.endpoints[uid])
  }

  // ---- Reading a scan ----

  /** Every filter of a visited link is among the attachments. */
  lemma {:induction false} AttachmentListed(filters: FilterLists, links: seq<Link>, j: nat, f: Filter)
    requires j < |links| && f in FiltersAt(filters, links[j])
    ensures AttachmentOf(links[j], f) in AttachmentsOn(filters, links)
  {
    var here := AttachmentsAt(links[0], FiltersAt(filters, links[0]));
    if j == 0 {
      var i :| 0 <= i < |FiltersAt(filters, links[0])| && FiltersAt(filters, links[0])[i] == f;
      assert here[i] == AttachmentOf(links[0], f);
    } else {
      AttachmentListed(filters, links[1..], j - 1, f);
    }
  }

  lemma {:induction false} NoConflictsAt(list: seq<Filter>)
    ensures ConflictsAt(list) == 0 <==> forall f :: f in list ==> !Unverifiable(f)
    ensures ConflictsAt(list) <= |list|
  {
    if list != [] {
      NoConflictsAt(list[..|list| - 1]);
      assert forall f :: f in list <==> f in list[..|list| - 1] || f == list[|list| - 1];
    }
  }

  /** A scan reports no conflict exactly when every filter it sees can be identified. */
  lemma {:induction false} NoConflicts(filters: FilterLists, links: seq<Link>)
    ensures ConflictsOn(filters, links) == 0 <==>
            forall j, f :: 0 <= j < |links| && f in FiltersAt(filters, links[j]) ==> !Unverifiable(f)
    ensures forall f :: Unverifiable(f) <==> f.program == OtherProgram("") || f.programId == 0
  {
    if links != [] {
      NoConflictsAt(FiltersAt(filters, links[0]));
      NoConflicts(filters, links[1..]);
      assert forall j :: 0 < j < |links| ==> links[j] == links[1..][j - 1];
      assert forall j :: 0 <= j < |links[1..]| ==> links[1..][j] == links[j + 1];
    }
  }

  // ---- After a pass ----

  /** A filter that was not there before was added. */
  lemma OldOrAdded(before: seq<Filter>, after: seq<Filter>, f: Filter)
    requires Grown(before, after)
    ensures f in before ==> f in after
    ensures f in after ==> f in before || Added(before, f)
  {
    assert f in before ==> f in multiset(before) && f in multiset(after);
    if f in after && f !in before {
      assert f in multiset(after) && f !in multiset(before);
      assert f in multiset(after) - multiset(before);
    }
  }

  /** Attaching filters neither makes nor removes a conflict. */
  lemma SameConflicts(before: FilterLists, after: FilterLists, links: seq<Link>)
    requires FiltersGrown(before, after)
    ensures ConflictsOn(after, links) == 0 <==> ConflictsOn(before, links) == 0
  {
    NoConflicts(before, links);
    NoConflicts(after, links);
    forall j, f | 0 <= j < |links|
      ensures f in FiltersAt(before, links[j]) ==> f in FiltersAt(after, links[j])
      ensures f in FiltersAt(after, links[j]) && Unverifiable(f) ==> f in FiltersAt(before, links[j])
    {
      assert GrownAt(before, after, Key(links[j]));
      OldOrAdded(FiltersAt(before, links[j]), FiltersAt(after, links[j]), f);
    }
  }

  /** An established filter shows under its program's name exactly if it did before, or if
      its handle was free. */
  lemma EstablishedName(before: seq<Filter>, after: seq<Filter>, want: Filter)
    requires Grown(before, after) && Ours(want) && Decide(after, want) == Reuse
    ensures ShownIn(after, want) <==> ShownIn(before, want) || HandleFree(before, want)
  {
    if ShownIn(before, want) {
      var f :| f in before && Shows(f, want);
      OldOrAdded(before, after, f);
    }
    if ShownIn(after, want) {
      var f :| f in after && Shows(f, want);
      OldOrAdded(before, after, f);
    }
    if HandleFree(before, want) {
      DecideMeans(after, want);
      var i :| 0 <= i < |after| && SameHandle(after[i], want) && !Foreign(after[i], want);
      OldOrAdded(before, after, after[i]);
      SlotsDiffer(after[i].program, want.program);
    }
  }

  lemma SlotsDiffer(p: ProgramName, q: ProgramName)
    requires FixedSlot(p).Some? && FixedSlot(p) == FixedSlot(q)
    ensures p == q
  {
  }

  /** A scan shows a filter exactly if its link is listed and the filter is on it. */
  lemma AttachedMeans(filters: FilterLists, links: seq<Link>, spec: FilterSpec)
    ensures Attached(AttachmentsOn(filters, Visited(links, {})), spec) <==>
            Listed(links, spec.link) && ShownIn(FiltersAt(filters, spec.link), spec.filter)
  {
    var v := Visited(links, {});
    var attachments := AttachmentsOn(filters, v);
    if Attached(attachments, spec) {
      var i :| 0 <= i < |attachments| && Matches(attachments[i], spec);
      var j, f := ReadBack(filters, v, i);
      ListedIfVisited(links, v[j]);
      assert Shows(f, spec.filter) && f in FiltersAt(filters, spec.link);
    }
    if Listed(links, spec.link) && ShownIn(FiltersAt(filters, spec.link), spec.filter) {
      var f :| f in FiltersAt(filters, spec.link) && Shows(f, spec.filter);
      var l := VisitedLink(links, spec.link);
      var j :| 0 <= j < |v| && v[j] == l;
      AttachmentListed(filters, v, j, f);
      ListedIsAttached(attachments, AttachmentOf(l, f), spec);
    }
  }

  lemma VisitedLink(links: seq<Link>, link: Link) returns (v: Link)
    requires Listed(links, link)
    ensures v in Visited(links, {}) && Key(v) == Key(link)
  {
    VisitedMeans(links, {});
    FirstWithKey(links, Key(link));
    v := FirstWith(links, Key(link)).value;
  }

  lemma ListedIfVisited(links: seq<Link>, v: Link)
    requires v in Visited(links, {})
    ensures Listed(links, v)
  {
    VisitedMeans(links, {});
  }

  lemma ListedIsAttached(attachments: seq<Attachment>, a: Attachment, spec: FilterSpec)
    requires a in attachments && Matches(a, spec)
    ensures Attached(attachments, spec)
  {
  }

  lemma SameCollection(a: Pins, b: Pins, links: seq<Link>)
    requires a.programs == b.programs && SameShape(a.maps, b.maps)
    ensures CollectionVerified(ScanOf(a, links)) <==> CollectionVerified(ScanOf(b, links))
  {
    assert ScanOf(b, links).programs == ScanOf(a, links).programs;
    assert ScanOf(b, links).maps == ScanOf(a, links).maps;
  }

  /** A filter that a pass established is verified exactly if it was shown or its handle was
      free before the pass, and its link is listed. */
  lemma EstablishedIsVerified(a: Pins, b: Pins, links: seq<Link>, link: Link, program: ProgramName)
    requires program in REQUIRED_PROGRAMS && a.programs == b.programs && FiltersGrown(a.filters, b.filters)
    requires FilterSettled(b.filters, b.programs, link, program)
    ensures AttachmentVerified(ScanOf(b, links), link, program) <==> Shown(a, links, link, program)
  {
    var spec := Wanted(b.programs, link, program).value;
    assert GrownAt(a.filters, b.filters, Key(link));
    EstablishedName(FiltersAt(a.filters, link), FiltersAt(b.filters, link), spec.filter);
    AttachedMeans(b.filters, links, spec);
  }

  /** A host that a pass has settled, growing the filters of `a`. */
  ghost predicate SettledFrom(order: Endian, a: Pins, b: Pins, desired: DesiredState, links: seq<Link>) {
    && a.programs == b.programs && SameShape(a.maps, b.maps) && FiltersGrown(a.filters, b.filters)
    && Settled(order, b, desired, links)
  }

  lemma BaseVerified(order: Endian, a: Pins, b: Pins, desired: DesiredState, links: seq<Link>)
    requires SettledFrom(order, a, b, desired, links)
    ensures AttachmentVerified(ScanOf(b, links), desired.underlay, TcInitE) <==>
            Shown(a, links, desired.underlay, TcInitE)
    ensures AttachmentVerified(ScanOf(b, links), desired.underlay, TcRestore) <==>
            Shown(a, links, desired.underlay, TcRestore)
  {
    EstablishedIsVerified(a, b, links, desired.underlay, TcInitE);
    EstablishedIsVerified(a, b, links, desired.underlay, TcRestore);
  }

  lemma EndpointsVerified(order: Endian, a: Pins, b: Pins, desired: DesiredState, links: seq<Link>, uid: string)
    requires SettledFrom(order, a, b, desired, links) && uid in desired.endpoints
    ensures EndpointVerified(ScanOf(b, links), desired.endpoints[uid]) <==>
            EndpointShown(a, links, desired.endpoints[uid])
  {
    var e := desired.endpoints[uid];
    assert Held(order, b, desired, e);
    EstablishedIsVerified(a, b, links, e.peer, TcInitIn);
    EstablishedIsVerified(a, b, links, e.host, TcMasq);
  }

  /** Once each part of the verification is traced back, so is the whole. */
  lemma VerifiedByParts(a: Pins, b: Pins, desired: DesiredState, links: seq<Link>)
    requires desired.enabled && b.marker
    requires CollectionVerified(ScanOf(a, links)) <==> CollectionVerified(ScanOf(b, links))
    requires ConflictsOn(b.filters, Visited(links, {})) == 0 <==> ConflictsOn(a.filters, Visited(links, {})) == 0
    requires AttachmentVerified(ScanOf(b, links), desired.underlay, TcInitE) <==>
             Shown(a, links, desired.underlay, TcInitE)
    requires AttachmentVerified(ScanOf(b, links), desired.underlay, TcRestore) <==>
             Shown(a, links, desired.underlay, TcRestore)
    requires forall uid :: uid in desired.endpoints ==>
               (EndpointVerified(ScanOf(b, links), desired.endpoints[uid]) <==>
                EndpointShown(a, links, desired.endpoints[uid]))
    ensures Verified(desired, ScanOf(b, links)) <==> Presentable(a, desired, links)
  {
  }

  /** A pass that went well ends verified exactly if the host was presentable before it. */
  lemma SettledIsVerified(order: Endian, a: Pins, b: Pins, desired: DesiredState, links: seq<Link>)
    requires SettledFrom(order, a, b, desired, links) && desired.enabled
    ensures Verified(desired, ScanOf(b, links)) <==> Presentable(a, desired, links)
  {
    SameConflicts(a.filters, b.filters, Visited(links, {}));
    BaseVerified(order, a, b, desired, links);
    forall uid | uid in desired.endpoints
      ensures EndpointVerified(ScanOf(b, links), desired.endpoints[uid]) <==>
              EndpointShown(a, links, desired.endpoints[uid])
    {
      EndpointsVerified(order, a, b, desired, links, uid);
    }
    SameCollection(a, b, links);
    VerifiedByParts(a, b, desired, links);
  }

  lemma DoneIsVerified(order: Endian, a: Pins, b: Pins, desired: DesiredState, links: seq<Link>)
    requires Done(order, a, b, desired, links) && desired.enabled
    ensures Verified(desired, ScanOf(b, links)) <==> Presentable(a, desired, links)
  {
    SettledIsVerified(order, a, b, desired, links);
  }

  // ---- The first run ----

  /** A host without pins or filters of any kind. */
  const BARE := Pins(map[], map[], map[], false)

  predicate Described(desired: DesiredState, links: seq<Link>, e: Endpoint) {
    Encodable(desired, e) && LinkUsable(e.peer) && LinkUsable(e.host) && Listed(links, e.peer) && Listed(links, e.host)
  }

  /** The desired state is complete: every link usable and listed, every endpoint encodable. */
  predicate WellDescribed(desired: DesiredState, links: seq<Link>) {
    && desired.enabled && desired.markerSupported && Reachable(Visited(links, {}))
    && LinkUsable(desired.underlay) && Listed(links, desired.underlay)
    && forall uid :: uid in desired.endpoints ==> Described(desired, links, desired.endpoints[uid])
  }

  predicate RealIds(ids: KernelIds) {
    && (forall name :: name in REQUIRED_PROGRAMS ==> IdOf(ids.programs, name) != 0)
    && (forall name :: name in SCHEMA ==> IdOf(ids.maps, name) != 0)
  }

  lemma BareIsNotReady(links: seq<Link>)
    ensures !CollectionReady(ScanOf(BARE, links))
  {
    assert TcInitE in REQUIRED_PROGRAMS && TcInitE !in ScanOf(BARE, links).programs;
  }

  lemma BareCanLoad(control: Control)
    ensures CanLoad(V1_SCHEMA, BARE, control)
  {
  }

  function LoadedBare(ids: KernelIds): Pins {
    Expected(BARE, false, ids)
  }

  lemma LoadedBareMap(links: seq<Link>, ids: KernelIds, name: MapName)
    requires RealIds(ids) && name in SCHEMA
    ensures var p := LoadedBare(ids);
            && name in p.maps && p.maps[name] == PinnedMap(IdOf(ids.maps, name), SCHEMA[name], map[])
            && MapVerified(ScanOf(p, links).maps, name)
  {
    assert name in NewMaps(V1_SCHEMA.maps.Keys - {}, V1_SCHEMA, ids.maps);
  }

  lemma LoadedBareProgram(links: seq<Link>, ids: KernelIds, name: ProgramName)
    requires RealIds(ids) && name in REQUIRED_PROGRAMS
    ensures var p := LoadedBare(ids);
            && name in p.programs && p.programs[name].id == IdOf(ids.programs, name) != 0
            && ProgramAvailable(ScanOf(p, links).programs, name)
  {
  }

  /** A bare host once the collection is loaded. */
  lemma LoadedBareHost(links: seq<Link>, ids: KernelIds)
    requires RealIds(ids)
    ensures var p := LoadedBare(ids);
            && p.filters == map[] && p.marker && Readable(p) && CollectionVerified(ScanOf(p, links))
            && IngressCache in p.maps && p.maps[IngressCache].entries == map[]
            && Devmap in p.maps && p.maps[Devmap].entries == map[]
  {
    forall name | name in SCHEMA
      ensures var p := LoadedBare(ids);
              name in p.maps && p.maps[name].descriptor == SCHEMA[name] && MapVerified(ScanOf(p, links).maps, name)
    {
      LoadedBareMap(links, ids, name);
    }
    forall name | name in REQUIRED_PROGRAMS
      ensures ProgramAvailable(ScanOf(LoadedBare(ids), links).programs, name)
    {
      LoadedBareProgram(links, ids, name);
    }
    LoadedBareMap(links, ids, IngressCache);
    LoadedBareMap(links, ids, Devmap);
  }

  lemma LoadedBareAttachable(link: Link, program: ProgramName, ids: KernelIds)
    requires RealIds(ids) && LinkUsable(link) && program in REQUIRED_PROGRAMS
    ensures var p := LoadedBare(ids);
            Attachable(p.filters, p.programs, link, program)
  {
    LoadedBareProgram([], ids, program);
  }

  lemma BareIsFeasible(order: Endian, desired: DesiredState, links: seq<Link>, ids: KernelIds, e: Endpoint)
    requires Described(desired, links, e) && RealIds(ids)
    ensures Feasible(order, LoadedBare(ids), desired, e)
  {
    LoadedBareHost(links, ids);
    LoadedBareAttachable(e.peer, TcInitIn, ids);
    LoadedBareAttachable(e.host, TcMasq, ids);
  }

  lemma BareIsAvailable(order: Endian, desired: DesiredState, links: seq<Link>, ids: KernelIds)
    requires WellDescribed(desired, links) && RealIds(ids)
    ensures Available(order, LoadedBare(ids), desired, links)
  {
    var p := LoadedBare(ids);
    LoadedBareHost(links, ids);
    LoadedBareAttachable(desired.underlay, TcInitE, ids);
    LoadedBareAttachable(desired.underlay, TcRestore, ids);
    forall uid | uid in desired.endpoints
      ensures Feasible(order, p, desired, desired.endpoints[uid])
    {
      BareIsFeasible(order, desired, links, ids, desired.endpoints[uid]);
    }
    SchemaIsSeen(ScanOf(p, links));
  }

  lemma SchemaIsSeen(actual: ActualState)
    requires CollectionVerified(actual)
    ensures BaseAvailable(actual) && Ensurable(actual)
  {
    assert MapVerified(actual.maps, IngressCache) && MapVerified(actual.maps, Devmap);
  }

  lemma BareIsPresentable(desired: DesiredState, links: seq<Link>, ids: KernelIds)
    requires WellDescribed(desired, links) && RealIds(ids)
    ensures Presentable(LoadedBare(ids), desired, links)
  {
    var p := LoadedBare(ids);
    LoadedBareHost(links, ids);
    NoConflicts(p.filters, Visited(links, {}));
    forall uid | uid in desired.endpoints
      ensures EndpointShown(p, links, desired.endpoints[uid])
    {
      assert Described(desired, links, desired.endpoints[uid]);
    }
  }

  // ---- A filter under another name ----

  /** A filter in the place of `tc_init_e` that runs it, but under another name, as another
      tool attaches a pinned program. */
  function UnderAnotherName(ids: KernelIds, name: string): Filter {
    Filter(HookEgress, OtherProgram(name), IdOf(ids.programs, TcInitE), FIXED_PRIORITY, 0x100, true)
  }

  /** A loaded host with that one filter, on the underlay. */
  function Misnamed(desired: DesiredState, ids: KernelIds, name: string): Pins {
    LoadedBare(ids).(filters := map[Key(desired.underlay) := [UnderAnotherName(ids, name)]])
  }

  lemma MisnamedIsSeen(desired: DesiredState, links: seq<Link>, ids: KernelIds, name: string)
    requires RealIds(ids)
    ensures var p := Misnamed(desired, ids, name);
            CollectionReady(ScanOf(p, links)) && CollectionVerified(ScanOf(p, links)) && Readable(p)
  {
    LoadedBareHost(links, ids);
    SameCollection(LoadedBare(ids), Misnamed(desired, ids, name), links);
    VerifiedIsReady(Misnamed(desired, ids, name), links);
  }

  lemma MisnamedAttachable(desired: DesiredState, ids: KernelIds, name: string, link: Link, program: ProgramName)
    requires RealIds(ids) && LinkUsable(link) && program in REQUIRED_PROGRAMS
    ensures var p := Misnamed(desired, ids, name);
            Attachable(p.filters, p.programs, link, program)
  {
    LoadedBareAttachable(link, program, ids);
    var p := Misnamed(desired, ids, name);
    var want := Wanted(p.programs, link, program).value.filter;
    if Key(link) == Key(desired.underlay) {
      assert FiltersAt(p.filters, link) == [UnderAnotherName(ids, name)];
      assert !Foreign(UnderAnotherName(ids, name), want);
    }
  }

  lemma MisnamedIsFeasible(order: Endian, desired: DesiredState, links: seq<Link>, ids: KernelIds, name: string,
                           e: Endpoint)
    requires Described(desired, links, e) && RealIds(ids)
    ensures Feasible(order, Misnamed(desired, ids, name), desired, e)
  {
    BareIsFeasible(order, desired, links, ids, e);
    MisnamedAttachable(desired, ids, name, e.peer, TcInitIn);
    MisnamedAttachable(desired, ids, name, e.host, TcMasq);
  }

  /** Nothing stands in the way of an ensure pass over such a host. */
  lemma MisnamedIsAvailable(order: Endian, desired: DesiredState, links: seq<Link>, ids: KernelIds, name: string)
    requires WellDescribed(desired, links) && RealIds(ids)
    ensures var p := Misnamed(desired, ids, name);
            p.marker && CollectionReady(ScanOf(p, links)) && Available(order, p, desired, links)
  {
    var p := Misnamed(desired, ids, name);
    MisnamedIsSeen(desired, links, ids, name);
    SchemaIsSeen(ScanOf(p, links));
    MisnamedAttachable(desired, ids, name, desired.underlay, TcInitE);
    MisnamedAttachable(desired, ids, name, desired.underlay, TcRestore);
    forall uid | uid in desired.endpoints
      ensures Feasible(order, p, desired, desired.endpoints[uid])
    {
      MisnamedIsFeasible(order, desired, links, ids, name, desired.endpoints[uid]);
    }
  }

  lemma MisnamedIsNotShown(desired: DesiredState, links: seq<Link>, ids: KernelIds, name: string)
    requires LinkUsable(desired.underlay) && RealIds(ids)
    ensures !Shown(Misnamed(desired, ids, name), links, desired.underlay, TcInitE)
  {
    LoadedBareProgram(links, ids, TcInitE);
    var p := Misnamed(desired, ids, name);
    var want := Wanted(p.programs, desired.underlay, TcInitE).value.filter;
    var f := UnderAnotherName(ids, name);
    assert FiltersAt(p.filters, desired.underlay) == [f] && SameHandle(f, want) && !Shows(f, want);
    assert f in [f];
  }
}
