/** Scanning the host, and the verification that gates commit and publish. */
module Observation {
  import opened Wrappers
  import opened Kernel
  import opened Tc
  import opened Links
  import Order

  // ---- Scanning ----

  function AttachmentOf(link: Link, f: Filter): Attachment {
    Attachment(link, f.hook, f.program, f.programId, f.priority, f.handle)
  }

  function AttachmentsAt(link: Link, list: seq<Filter>): (r: seq<Attachment>)
    ensures |r| == |list| && forall i :: 0 <= i < |list| ==> r[i] == AttachmentOf(link, list[i])
  {
    seq(|list|, i requires 0 <= i < |list| => AttachmentOf(link, list[i]))
  }

  /** A filter whose program cannot be identified. */
  predicate Unverifiable(f: Filter) {
    f.program == OtherProgram("") || f.programId == 0
  }

  function ConflictsAt(list: seq<Filter>): nat {
    if list == [] then 0 else ConflictsAt(list[..|list| - 1]) + if Unverifiable(list[|list| - 1]) then 1 else 0
  }

  function AttachmentsOn(filters: FilterLists, links: seq<Link>): seq<Attachment> {
    if links == [] then []
    else AttachmentsAt(links[0], FiltersAt(filters, links[0])) + AttachmentsOn(filters, links[1..])
  }

  function ConflictsOn(filters: FilterLists, links: seq<Link>): nat {
    if links == [] then 0
    else ConflictsAt(FiltersAt(filters, links[0])) + ConflictsOn(filters, links[1..])
  }

  /** Every pinned map of the collection has the expected schema. */
  predicate Readable(pins: Pins) {
    forall name :: name in SCHEMA && name in pins.maps ==> pins.maps[name].descriptor == SCHEMA[name]
  }

  predicate LinkUsable(link: Link) {
    link.ifindex > 0 && (link.netns != 0 ==> link.path != "")
  }

  predicate Reachable(links: seq<Link>) {
    forall i :: 0 <= i < |links| ==> LinkUsable(links[i])
  }

  function Reported(program: ProgramState): ProgramState {
    program.(maps := map[])
  }

  /** What a scan that does not fail reports. It leaves the control field as it starts. */
  function ScanOf(pins: Pins, links: seq<Link>): ActualState {
    ActualState(false,
                map name | name in REQUIRED_PROGRAMS && name in pins.programs :: Reported(pins.programs[name]),
                map name | name in SCHEMA && name in pins.maps ::
                  var d := pins.maps[name].descriptor;
                  MapState(pins.maps[name].id, d.keySize, d.valueSize, d.maxEntries),
                AttachmentsOn(pins.filters, Visited(links, {})),
                ConflictsOn(pins.filters, Visited(links, {})),
                pins.marker)
  }

  class Observer {
    const host: Host
    const links: seq<Link>

    constructor (host: Host, links: seq<Link>)
      ensures this.host == host && this.links == links
    {
      this.host := host;
      this.links := links;
    }

    /** `Observer.Scan`; `fails` stands for a failing read of the kernel. */
    method Scan(fails: bool) returns (r: Option<ActualState>)
      ensures r.Some? <==> !fails && Readable(host.View()) && Reachable(Visited(links, {}))
      ensures r.Some? ==> r.value == ScanOf(host.View(), links)
    {
      if !Readable(host.View()) {
        return None;
      }
      var tc := ScanFilters(fails);
      if tc.None? {
        return None;
      }
      return Some(ScanOf(host.View(), links).(attachments := tc.value.0, conflicts := tc.value.1));
    }

    /** `TCScanner.Scan`. */
    method ScanFilters(fails: bool) returns (r: Option<(seq<Attachment>, nat)>)
      ensures r.Some? <==> !fails && Reachable(Visited(links, {}))
      ensures r.Some? ==> r.value == (AttachmentsOn(host.filters, Visited(links, {})),
                                      ConflictsOn(host.filters, Visited(links, {})))
    {
      if fails {
        return None;
      }
      var attachments, conflicts := [], 0;
      var seen: set<LinkKey> := {};
      ghost var whole := WholeScan(host.filters, Visited(links, {}));
      var i := 0;
      while i < |links|
        invariant 0 <= i <= |links|
        invariant Pending(host.filters, whole, links[i..], seen, attachments, conflicts)
      {
        var link := links[i];
        Suffix(links, i);
        if Key(link) in seen {
          SkipOne(host.filters, whole, links[i..], seen, attachments, conflicts);
        } else {
          VisitOne(host.filters, whole, links[i..], seen, attachments, conflicts);
          seen := seen + {Key(link)};
          if link.ifindex <= 0 || (link.netns != 0 && link.path == "") {
            assert !Reachable(Visited(links, {}));
            return None;
          }
          var more, found := ListFilters(link);
          attachments, conflicts := attachments + more, conflicts + found;
        }
        i := i + 1;
      }
      Suffix(links, i);
      assert attachments + [] == attachments;
      return Some((attachments, conflicts));
    }

    method ListFilters(link: Link) returns (attachments: seq<Attachment>, conflicts: nat)
      ensures attachments == AttachmentsAt(link, FiltersAt(host.filters, link))
      ensures conflicts == ConflictsAt(FiltersAt(host.filters, link))
    {
      var list := FiltersAt(host.filters, link);
      attachments, conflicts := [], 0;
      var i := 0;
      while i < |list|
        invariant 0 <= i <= |list|
        invariant attachments == AttachmentsAt(link, list[..i])
        invariant conflicts == ConflictsAt(list[..i])
      {
        attachments := attachments + [AttachmentOf(link, list[i])];
        assert list[..i + 1][..i] == list[..i];
        if Unverifiable(list[i]) {
          conflicts := conflicts + 1;
        }
        i := i + 1;
      }
      assert list[..i] == list;
    }
  }

  datatype Whole = Whole(attachments: seq<Attachment>, conflicts: nat, reachable: bool)

  ghost function WholeScan(filters: FilterLists, links: seq<Link>): Whole {
    Whole(AttachmentsOn(filters, links), ConflictsOn(filters, links), Reachable(links))
  }

  /** A scan under way: what it has and what the remaining links will add make the whole. */
  ghost predicate Pending(filters: FilterLists, whole: Whole, rest: seq<Link>, seen: set<LinkKey>,
                          attachments: seq<Attachment>, conflicts: nat)
  {
    var todo := WholeScan(filters, Visited(rest, seen));
    && attachments + todo.attachments == whole.attachments
    && conflicts + todo.conflicts == whole.conflicts
    && (whole.reachable <==> todo.reachable)
  }

  lemma Suffix<T>(s: seq<T>, i: nat)
    requires i <= |s|
    ensures i < |s| ==> s[i..] != [] && s[i..][0] == s[i] && s[i..][1..] == s[i + 1..]
    ensures i == |s| ==> s[i..] == []
  {
  }

  lemma VisitOne(filters: FilterLists, whole: Whole, rest: seq<Link>, seen: set<LinkKey>,
                 attachments: seq<Attachment>, conflicts: nat)
    requires rest != [] && Key(rest[0]) !in seen
    requires Pending(filters, whole, rest, seen, attachments, conflicts)
    ensures LinkUsable(rest[0]) ==>
              Pending(filters, whole, rest[1..], seen + {Key(rest[0])},
                      attachments + AttachmentsAt(rest[0], FiltersAt(filters, rest[0])),
                      conflicts + ConflictsAt(FiltersAt(filters, rest[0])))
    ensures whole.reachable ==> LinkUsable(rest[0])
  {
    var link, later := rest[0], Visited(rest[1..], seen + {Key(rest[0])});
    var todo := [link] + later;
    assert Visited(rest, seen) == todo;
    WholeCons(filters, link, later);
    var here, more := AttachmentsAt(link, FiltersAt(filters, link)), AttachmentsOn(filters, later);
    assert attachments + (here + more) == attachments + here + more;
  }

  lemma WholeCons(filters: FilterLists, link: Link, rest: seq<Link>)
    ensures var all := WholeScan(filters, [link] + rest);
            && all.attachments == AttachmentsAt(link, FiltersAt(filters, link)) + AttachmentsOn(filters, rest)
            && all.conflicts == ConflictsAt(FiltersAt(filters, link)) + ConflictsOn(filters, rest)
            && (all.reachable <==> LinkUsable(link) && Reachable(rest))
  {
    var all := [link] + rest;
    assert all[0] == link && all[1..] == rest;
    ReachableCons(link, rest);
  }

  /** A link whose key has been seen adds nothing. */
  lemma SkipOne(filters: FilterLists, whole: Whole, rest: seq<Link>, seen: set<LinkKey>,
                attachments: seq<Attachment>, conflicts: nat)
    requires rest != [] && Key(rest[0]) in seen
    requires Pending(filters, whole, rest, seen, attachments, conflicts)
    ensures Pending(filters, whole, rest[1..], seen, attachments, conflicts)
  {
    assert Visited(rest, seen) == Visited(rest[1..], seen);
  }

  lemma ReachableCons(link: Link, rest: seq<Link>)
    ensures Reachable([link] + rest) <==> LinkUsable(link) && Reachable(rest)
  {
    var all := [link] + rest;
    assert all[0] == link;
    assert forall i :: 0 <= i < |rest| ==> all[i + 1] == rest[i];
    if Reachable(all) {
      forall i | 0 <= i < |rest|
        ensures LinkUsable(rest[i])
      {
        assert all[i + 1] == rest[i];
      }
    }
  }

  /** The filter behind an attachment. */
  lemma {:induction false} ReadBack(filters: FilterLists, links: seq<Link>, i: nat) returns (j: nat, f: Filter)
    requires i < |AttachmentsOn(filters, links)|
    ensures j < |links| && f in FiltersAt(filters, links[j])
    ensures AttachmentsOn(filters, links)[i] == AttachmentOf(links[j], f)
  {
    var list := FiltersAt(filters, links[0]);
    if i < |list| {
      j, f := 0, list[i];
    } else {
      j, f := ReadBack(filters, links[1..], i - |list|);
      j := j + 1;
    }
  }

  // ---- Verification ----

  /** `hasAttachment` compares the program name but not direct action. */
  predicate Matches(a: Attachment, spec: FilterSpec) {
    && Key(a.link) == Key(spec.link) && a.hook == spec.filter.hook && a.program == spec.filter.program
    && a.programId == spec.filter.programId && a.priority == spec.filter.priority && a.handle == spec.filter.handle
  }

  predicate Attached(attachments: seq<Attachment>, spec: FilterSpec) {
    exists i :: 0 <= i < |attachments| && Matches(attachments[i], spec)
  }

  method HasAttachment(attachments: seq<Attachment>, spec: FilterSpec) returns (found: bool)
    ensures found <==> Attached(attachments, spec)
  {
    var i := 0;
    while i < |attachments|
      invariant 0 <= i <= |attachments|
      invariant forall j :: 0 <= j < i ==> !Matches(attachments[j], spec)
    {
      if Matches(attachments[i], spec) {
        return true;
      }
      i := i + 1;
    }
    return false;
  }

  predicate ProgramAvailable(programs: PinnedPrograms, name: ProgramName) {
    name in programs && programs[name].id != 0 && (programs[name].name.None? || programs[name].name == Some(name))
  }

  predicate MapVerified(maps: map<MapName, MapState>, name: MapName)
    requires name in SCHEMA
  {
    name in maps && maps[name].id != 0 && maps[name].keySize == SCHEMA[name].keySize
    && maps[name].valueSize == SCHEMA[name].valueSize && maps[name].maxEntries == SCHEMA[name].maxEntries
  }

  /** The filter of a program on a link, named by the program's pinned ID, is attached. */
  predicate AttachmentVerified(actual: ActualState, link: Link, program: ProgramName) {
    && program in actual.programs
    && var spec := NewFixedFilter(link, program, actual.programs[program].id);
    spec.Some? && Attached(actual.attachments, spec.value)
  }

  predicate EndpointVerified(actual: ActualState, endpoint: Endpoint) {
    AttachmentVerified(actual, endpoint.peer, TcInitIn) && AttachmentVerified(actual, endpoint.host, TcMasq)
  }

  predicate CollectionVerified(actual: ActualState) {
    && (forall name :: name in REQUIRED_PROGRAMS ==> ProgramAvailable(actual.programs, name))
    && (forall name :: name in SCHEMA ==> MapVerified(actual.maps, name))
  }

  /** What `VerifyState` accepts. */
  predicate Verified(desired: DesiredState, actual: ActualState) {
    && desired.enabled && !actual.controlEnabled && actual.conflicts == 0 && CollectionVerified(actual) && actual.marker
    && AttachmentVerified(actual, desired.underlay, TcInitE)
    && AttachmentVerified(actual, desired.underlay, TcRestore)
    && forall uid :: uid in desired.endpoints ==> EndpointVerified(actual, desired.endpoints[uid])
  }

  // ---- The verification in terms of the four identities and the eight maps ----

  /** An attachment of the program on the interface, at its own hook, handle and priority
      and under the ID in force. */
  predicate ShowsProgram(a: Attachment, link: Link, program: ProgramName, id: nat) {
    && a.link.netns == link.netns && a.link.ifindex == link.ifindex
    && a.program == program && a.programId == id && a.priority == 1000
    && OneOfTheFour(Filter(a.hook, a.program, a.programId, a.priority, a.handle, true))
  }

  lemma AttachmentVerifiedMeans(actual: ActualState, link: Link, program: ProgramName)
    ensures AttachmentVerified(actual, link, program) <==>
            && link.ifindex > 0 && program in actual.programs && actual.programs[program].id != 0
            && exists i :: 0 <= i < |actual.attachments|
                           && ShowsProgram(actual.attachments[i], link, program, actual.programs[program].id)
  {
    if program in actual.programs {
      var spec := NewFixedFilter(link, program, actual.programs[program].id);
      assert spec.Some? ==> forall i :: 0 <= i < |actual.attachments| ==>
                              (Matches(actual.attachments[i], spec.value) <==>
                               ShowsProgram(actual.attachments[i], link, program, actual.programs[program].id));
    }
  }

  predicate Sized(actual: ActualState, name: MapName, keySize: nat, valueSize: nat, maxEntries: nat) {
    && name in actual.maps && actual.maps[name].id != 0
    && actual.maps[name] == MapState(actual.maps[name].id, keySize, valueSize, maxEntries)
  }

  predicate Loads(actual: ActualState, name: ProgramName) {
    && name in actual.programs && actual.programs[name].id != 0
    && (actual.programs[name].name == None || actual.programs[name].name == Some(name))
  }

  /** The four programs and the eight maps, one by one. */
  lemma CollectionVerifiedMeans(actual: ActualState)
    ensures CollectionVerified(actual) <==>
            && Loads(actual, TcInitE) && Loads(actual, TcRestore) && Loads(actual, TcMasq) && Loads(actual, TcInitIn)
            && Sized(actual, EgressIpCache, 4, 4, 4096) && Sized(actual, EgressCache, 4, 68, 1024)
            && Sized(actual, IngressCache, 4, 16, 1024) && Sized(actual, PolicyCache, 16, 4, 4096)
            && Sized(actual, Devmap, 4, 12, 8) && Sized(actual, ControlMap, 4, 40, 1)
            && Sized(actual, PolicyLockMap, 4, 4, 1) && Sized(actual, StatsMap, 4, 8, 14)
  {
    assert REQUIRED_PROGRAMS == {TcInitE, TcRestore, TcInitIn, TcMasq};
    assert SCHEMA.Keys == {EgressIpCache, EgressCache, IngressCache, PolicyCache, Devmap, ControlMap, PolicyLockMap,
                           StatsMap};
    if CollectionVerified(actual) {
      assert MapVerified(actual.maps, EgressIpCache) && MapVerified(actual.maps, EgressCache);
      assert MapVerified(actual.maps, IngressCache) && MapVerified(actual.maps, PolicyCache);
      assert MapVerified(actual.maps, Devmap) && MapVerified(actual.maps, ControlMap);
      assert MapVerified(actual.maps, PolicyLockMap) && MapVerified(actual.maps, StatsMap);
    }
  }

  method VerifyAttachment(actual: ActualState, link: Link, program: ProgramName) returns (ok: bool)
    requires program in actual.programs
    ensures ok <==> AttachmentVerified(actual, link, program)
  {
    var spec := NewFixedFilter(link, program, actual.programs[program].id);
    if spec.None? {
      return false;
    }
    ok := HasAttachment(actual.attachments, spec.value);
  }

  method VerifyState(desired: DesiredState, actual: ActualState) returns (ok: bool)
    ensures ok <==> Verified(desired, actual)
    ensures ok <==>
            && desired.enabled && !actual.controlEnabled && actual.conflicts == 0 && actual.marker
            && CollectionVerified(actual)
            && AttachmentVerified(actual, desired.underlay, TcInitE)
            && AttachmentVerified(actual, desired.underlay, TcRestore)
            && forall uid :: uid in desired.endpoints ==>
                 && AttachmentVerified(actual, desired.endpoints[uid].peer, TcInitIn)
                 && AttachmentVerified(actual, desired.endpoints[uid].host, TcMasq)
  {
    if !desired.enabled || actual.controlEnabled || actual.conflicts != 0 {
      return false;
    }
    if !CollectionVerified(actual) || !actual.marker {
      return false;
    }
    ok := VerifyAttachment(actual, desired.underlay, TcInitE);
    if !ok {
      return;
    }
    ok := VerifyAttachment(actual, desired.underlay, TcRestore);
    if !ok {
      return;
    }
    var rest := desired.endpoints.Keys;
    while rest != {}
      invariant rest <= desired.endpoints.Keys
      invariant forall uid :: uid in desired.endpoints && uid !in rest ==>
                  EndpointVerified(actual, desired.endpoints[uid])
      decreases |rest|
    {
      var uid :| uid in rest;
      rest := rest - {uid};
      ok := VerifyAttachment(actual, desired.endpoints[uid].peer, TcInitIn);
      if !ok {
        return;
      }
      ok := VerifyAttachment(actual, desired.endpoints[uid].host, TcMasq);
      if !ok {
        return;
      }
    }
    ok := true;
  }

  // ---- Ownership ----

  function Owned(uid: string, e: Endpoint): OwnedEndpoint {
    OwnedEndpoint(uid, e.podIp, e.netns, e.peer.ifindex, e.host.ifindex)
  }

  function OwnershipOf(desired: DesiredState, actual: ActualState): Ownership {
    Ownership(desired.generation, actual.programs, actual.maps, actual.attachments,
              map uid | uid in desired.endpoints :: Owned(uid, desired.endpoints[uid]))
  }

  /** `ownershipState`. */
  method OwnershipState(desired: DesiredState, actual: ActualState) returns (own: Ownership)
    ensures own == OwnershipOf(desired, actual)
  {
    var endpoints: map<string, OwnedEndpoint> := map[];
    var uids := Order.Sort(desired.endpoints.Keys);
    var i := 0;
    while i < |uids|
      invariant 0 <= i <= |uids|
      invariant forall j :: 0 <= j < i ==> uids[j] in endpoints
      invariant forall uid :: uid in endpoints ==>
                  uid in desired.endpoints && endpoints[uid] == Owned(uid, desired.endpoints[uid])
    {
      endpoints := endpoints[uids[i] := Owned(uids[i], desired.endpoints[uids[i]])];
      i := i + 1;
    }
    assert forall uid :: uid in desired.endpoints ==> uid in uids;
    own := Ownership(desired.generation, actual.programs, actual.maps, actual.attachments, endpoints);
  }

  /** A committed record speaks for a desired state: same generation, and its own programs,
      maps and attachments pass verification for it. */
  ghost predicate Covers(own: Ownership, desired: DesiredState) {
    && own.generation == desired.generation
    && Verified(desired, ActualState(false, own.programs, own.maps, own.attachments, 0, true))
    && own.endpoints.Keys == desired.endpoints.Keys
    && forall uid :: uid in desired.endpoints ==>
         var e, o := desired.endpoints[uid], own.endpoints[uid];
         && o.uid == uid && o.podIp == e.podIp && o.netns == e.netns
         && o.peerIfindex == e.peer.ifindex && o.hostIfindex == e.host.ifindex
  }

  lemma CommittedRecordCovers(desired: DesiredState, actual: ActualState)
    requires Verified(desired, actual)
    ensures Covers(OwnershipOf(desired, actual), desired)
  {
    var recorded := ActualState(false, actual.programs, actual.maps, actual.attachments, 0, true);
    assert recorded == actual;
  }
}
