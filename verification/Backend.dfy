/** The one-shot coordination adapter: ensure, verify, commit, publish. */
module Backend {
  import opened Wrappers
  import opened Caches
  import opened Kernel
  import opened Links
  import opened Observation
  import opened PinManager
  import opened Ensurers
  import opened MapEnsure
  import opened Passes
  import Tc
  import ControlWriter
  import Order

  datatype PublishConfig = PublishConfig(heartbeat: u64, timeout: u64, flags: u32)

  /** What a run of the agent is set up with. */
  datatype Site = Site(order: Endian, links: seq<Link>, elf: Collection, config: PublishConfig)

  /** A scan of the host works, and what it shows is verified. */
  predicate Verifiable(site: Site, h: HostState, found: DesiredState) {
    && Readable(h.pins) && Reachable(Visited(site.links, {}))
    && Verified(found, ScanOf(h.pins, site.links))
  }

  /** The record of a verified host is committed. */
  predicate Recorded(site: Site, h: HostState, found: DesiredState) {
    && Verified(found, ScanOf(h.pins, site.links))
    && h.ownership == Some(OwnershipOf(found, ScanOf(h.pins, site.links)))
  }

  /** How an ensure pass goes on from its second scan. */
  ghost predicate Scanned(site: Site, desired: DesiredState, mayFail: bool, a: HostState, b: HostState,
                          changed: bool, ok: bool) {
    && Gentle(a, b)
    && (ok ==> Passed(site.order, desired, a.pins, b.pins, changed))
    && (ok && desired.markerSupported && b.pins.marker ==> Settled(site.order, b.pins, desired, site.links))
    && (Stable(site.order, a.pins, desired, site.links) ==> Quiet(site.order, desired, a, b, changed))
    && (!mayFail ==> (ok <==> Available(site.order, a.pins, desired, site.links)))
  }

  /** How an ensure pass for an enabled state ends. `ready` says that the collection was. */
  ghost predicate Outcome(site: Site, desired: DesiredState, ready: bool, ids: KernelIds, mayFail: bool,
                          a: HostState, b: HostState, changed: bool, ok: bool)
  {
    && (ok ==>
          && Done(site.order, Expected(a.pins, ready, ids), b.pins, desired, site.links)
          && b.control == (if ready then a.control else ZERO_CONTROL.(abiVersion := ABI_VERSION))
          && (!changed ==> b.pins == a.pins)
          && (NoAddressClash(site.order, desired) || !changed ==> AllExact(site.order, b.pins.maps, desired)))
    && (Stable(site.order, a.pins, desired, site.links) && ready ==>
          && Quiet(site.order, desired, a, b, changed)
          && (ok && Refreshed(site.order, a.pins.maps, desired) ==> b.pins.maps == a.pins.maps))
    && (b.pins.filters == a.pins.filters || ready || SCHEMA.Keys <= b.pins.maps.Keys)
    && (!mayFail ==>
          (ok <==> desired.markerSupported && (ready || CanLoad(site.elf, a.pins, a.control))
                   && Available(site.order, Expected(a.pins, ready, ids), desired, site.links)))
  }

  /** The host after the collection and marker steps. */
  ghost predicate Loaded(site: Site, desired: DesiredState, ready: bool, ids: KernelIds, mayFail: bool,
                         a: HostState, b: HostState, changed: bool, ok: bool)
  {
    && Careful(a, b) && b.pins.filters == a.pins.filters
    && (ok ==>
          && desired.markerSupported && b.pins == Expected(a.pins, ready, ids)
          && b.control == (if ready then a.control else ZERO_CONTROL.(abiVersion := ABI_VERSION))
          && (!changed ==> b.pins == a.pins))
    && (ready && a.pins.marker ==> !changed && b == a)
    && (!mayFail ==> (ok <==> desired.markerSupported && (ready || CanLoad(site.elf, a.pins, a.control))))
  }

  /** The collection step for an enabled state. */
  ghost predicate Collected(site: Site, ready: bool, ids: KernelIds, mayFail: bool, a: HostState, b: HostState,
                            changed: bool, ok: bool)
  {
    && Careful(a, b) && b.pins.filters == a.pins.filters
    && (ready ==> !changed && b == a)
    && (!ready ==> changed == ok)
    && (!ready && ok ==>
          && b.pins == AfterLoad(a.pins, V1_SCHEMA, ids.programs, ids.maps)
          && b.control == ZERO_CONTROL.(abiVersion := ABI_VERSION))
    && (!mayFail ==> (ok <==> ready || CanLoad(site.elf, a.pins, a.control)))
  }

  /** The marker step for an enabled state. */
  ghost predicate Marked(desired: DesiredState, mayFail: bool, a: HostState, b: HostState, changed: bool, ok: bool) {
    && b == a.(pins := a.pins.(marker := b.pins.marker), log := b.log)
    && (a.pins.marker ==> b == a && !changed)
    && (ok ==> desired.markerSupported && b.pins.marker && (changed <==> !a.pins.marker))
    && (!a.On() ==> MadeWhileOff(a.log, b.log))
    && (!mayFail ==> (ok <==> desired.markerSupported))
  }

  lemma ReadyIsCollected(site: Site, ids: KernelIds, mayFail: bool, a: HostState, ok: bool)
    requires !mayFail ==> ok
    ensures Collected(site, true, ids, mayFail, a, a, false, ok)
  {
    CarefulReflexive(a);
  }

  lemma LoadedIsCollected(site: Site, ids: KernelIds, mayFail: bool, f: LoadFaults, a: HostState, b: HostState,
                          ok: bool)
    requires LoadOutcome(site.elf, V1_SCHEMA, f, a, b, ok) && f.programIds == ids.programs && f.mapIds == ids.maps
    requires b.pins.filters == a.pins.filters && b.pins.marker == a.pins.marker && b.ownership == a.ownership
    requires b.published == a.published
    requires !mayFail ==> f == NO_LOAD_FAULTS.(programIds := ids.programs, mapIds := ids.maps)
    ensures Collected(site, false, ids, mayFail, a, b, ok, ok)
  {
    PartlyLoadedIsLinked(V1_SCHEMA, f, a.pins, b.pins);
    KeptIsCareful(a, b);
  }

  lemma MarkedIsCareful(desired: DesiredState, mayFail: bool, a: HostState, b: HostState, changed: bool, ok: bool)
    requires Marked(desired, mayFail, a, b, changed, ok)
    ensures Careful(a, b)
  {
    AdditiveReflexive(a.pins);
  }

  lemma CollectedAndMarked(site: Site, desired: DesiredState, ready: bool, ids: KernelIds, mayFail: bool,
                           a: HostState, m: HostState, b: HostState, one: bool, two: bool, ok: bool)
    requires Collected(site, ready, ids, mayFail, a, m, one, true) && Marked(desired, mayFail, m, b, two, ok)
    ensures Loaded(site, desired, ready, ids, mayFail, a, b, one || two, ok)
  {
    MarkedIsCareful(desired, mayFail, m, b, two, ok);
    CarefulTransitive(a, m, b);
  }

  lemma ScannedIsOutcome(site: Site, desired: DesiredState, ready: bool, ids: KernelIds, mayFail: bool,
                         a: HostState, m: HostState, b: HostState, one: bool, two: bool, ok: bool)
    requires Loaded(site, desired, ready, ids, mayFail, a, m, one, true)
             && Scanned(site, desired, mayFail, m, b, two, ok)
    ensures Outcome(site, desired, ready, ids, mayFail, a, b, one || two, ok)
    ensures Careful(a, b)
  {
    GentleIsCareful(m, b);
    CarefulTransitive(a, m, b);
    if ok {
      GentleIsDone(site.order, m, b, desired, site.links);
    }
    if ready && Stable(site.order, a.pins, desired, site.links) {
      assert m == a;
    }
  }

  lemma LoadingFailed(site: Site, desired: DesiredState, ready: bool, ids: KernelIds, mayFail: bool, a: HostState,
                      b: HostState, changed: bool)
    requires Loaded(site, desired, ready, ids, mayFail, a, b, changed, false)
    ensures Outcome(site, desired, ready, ids, mayFail, a, b, changed, false)
  {
  }

  /** The node's own filters. */
  ghost predicate NodeEnsured(desired: DesiredState, current: ActualState, mayFail: bool, a: HostState, b: HostState,
                              changed: bool, ok: bool)
  {
    && Gentle(a, b)
    && (ok ==> BaseSettled(b.pins.filters, b.pins.programs, desired))
    && (NodeSettled(a.pins, current, desired) ==> b == a && !changed)
    && (ok && !changed ==> b == a)
    && (!mayFail ==> (ok <==> BaseAvailable(current) && BaseAttachable(a.pins.filters, a.pins.programs, desired)))
  }

  /** The loop over the endpoints. */
  ghost predicate EachEnsured(order: Endian, desired: DesiredState, current: ActualState, mayFail: bool,
                              a: HostState, b: HostState, changed: bool, ok: bool)
  {
    && Calm(order, desired, current, a, b, changed)
    && (ok ==> Complete(order, desired, a.pins, b.pins, changed))
    && (!mayFail ==>
          (ok <==> (desired.endpoints.Keys != {} ==> Ensurable(current)) && AllFeasible(order, a.pins, desired)))
  }

  /** Both, in this order. */
  ghost predicate LinksEnsured(order: Endian, desired: DesiredState, current: ActualState, mayFail: bool,
                               a: HostState, b: HostState, changed: bool, ok: bool)
  {
    && Gentle(a, b)
    && (ok ==> BaseSettled(b.pins.filters, b.pins.programs, desired) && Passed(order, desired, a.pins, b.pins, changed))
    && (NodeSettled(a.pins, current, desired) && AllSettled(a.pins, current, desired) ==>
          Quiet(order, desired, a, b, changed))
    && (!mayFail ==> (ok <==> PassReady(order, a.pins, current, desired)))
  }

  lemma NodeFailed(order: Endian, desired: DesiredState, current: ActualState, mayFail: bool, a: HostState,
                   b: HostState, changed: bool)
    requires NodeEnsured(desired, current, mayFail, a, b, changed, false)
    ensures LinksEnsured(order, desired, current, mayFail, a, b, changed, false)
  {
  }

  /** Attaching the node's filters is in no endpoint's way. */
  lemma NodeKeepsFeasible(order: Endian, desired: DesiredState, a: HostState, b: HostState)
    requires Gentle(a, b) && b.pins.maps == a.pins.maps
    ensures AllFeasible(order, a.pins, desired) <==> AllFeasible(order, b.pins, desired)
  {
    forall uid | uid in desired.endpoints
      ensures Feasible(order, a.pins, desired, desired.endpoints[uid]) <==>
              Feasible(order, b.pins, desired, desired.endpoints[uid])
    {
      var e := desired.endpoints[uid];
      assert Attachable(a.pins.filters, a.pins.programs, e.peer, TcInitIn) <==>
             Attachable(b.pins.filters, a.pins.programs, e.peer, TcInitIn);
      assert Attachable(a.pins.filters, a.pins.programs, e.host, TcMasq) <==>
             Attachable(b.pins.filters, a.pins.programs, e.host, TcMasq);
    }
  }

  lemma NodeThenEachPass(order: Endian, desired: DesiredState, current: ActualState, mayFail: bool, a: HostState,
                         b: HostState, c: HostState, one: bool, two: bool)
    requires NodeEnsured(desired, current, mayFail, a, b, one, true) && b.pins.maps == a.pins.maps
    requires EachEnsured(order, desired, current, mayFail, b, c, two, true)
    ensures Passed(order, desired, a.pins, c.pins, one || two)
  {
    CompleteIsPassed(order, desired, b.pins, c.pins, two);
  }

  lemma NodeThenEachReady(order: Endian, desired: DesiredState, current: ActualState, a: HostState, b: HostState,
                          c: HostState, one: bool, two: bool, ok: bool)
    requires NodeEnsured(desired, current, false, a, b, one, true) && b.pins.maps == a.pins.maps
    requires EachEnsured(order, desired, current, false, b, c, two, ok)
    ensures ok <==> PassReady(order, a.pins, current, desired)
  {
    NodeKeepsFeasible(order, desired, a, b);
  }

  lemma NodeThenEach(order: Endian, desired: DesiredState, current: ActualState, mayFail: bool, a: HostState,
                     b: HostState, c: HostState, one: bool, two: bool, ok: bool)
    requires NodeEnsured(desired, current, mayFail, a, b, one, true) && b.pins.maps == a.pins.maps
    requires EachEnsured(order, desired, current, mayFail, b, c, two, ok)
    ensures LinksEnsured(order, desired, current, mayFail, a, c, one || two, ok)
  {
    NodeThenEndpoints(desired, a, b, c);
    if ok {
      NodeThenEachPass(order, desired, current, mayFail, a, b, c, one, two);
    }
    if !mayFail {
      NodeThenEachReady(order, desired, current, a, b, c, one, two, ok);
    }
  }

  datatype MarkerFaults = MarkerFaults(cancelled: bool, read: bool, apply: bool, reread: bool)

  datatype CommitFault = NoCommitFault | BeforeRename | AfterRename

  class FirstPassBackend {
    const host: Host
    const order: Endian
    const observer: Observer
    const writer: ControlWriter.Writer
    const collection: CollectionEnsurer
    const base: BaseEnsurer
    const endpoint: EndpointEnsurer
    const maps: MapEnsurer
    const config: PublishConfig

    constructor (host: Host, links: seq<Link>, elf: Collection, order: Endian, config: PublishConfig)
      ensures Valid() && this.host == host && observer.links == links && this.order == order && this.config == config
    {
      this.host := host;
      this.order := order;
      this.config := config;
      observer := new Observer(host, links);
      writer := new ControlWriter.Writer(host);
      collection := new CollectionEnsurer(host, elf);
      base := new BaseEnsurer(host);
      endpoint := new EndpointEnsurer(host);
      maps := new MapEnsurer(host, order);
    }

    function Place(): Site {
      Site(order, observer.links, collection.elf, config)
    }

    predicate Valid() {
      && observer.host == host && writer.host == host && collection.host == host && collection.Valid()
      && base.filters.host == host && base.filters.Valid() && endpoint.filters.host == host && endpoint.filters.Valid()
      && maps.host == host && maps.Valid() && maps.order == order
    }

    /** `EnsureMarker`, with the rule text abstracted to one rule that is there or not. */
    method EnsureMarker(desired: DesiredState, f: MarkerFaults) returns (changed: bool, ok: bool)
      modifies host`marker, host`log
      ensures !desired.enabled ==> !changed && host.marker == old(host.marker) && (ok <==> !f.cancelled)
      ensures old(host.marker) ==> host.marker && !changed
      ensures host.log == old(host.log) +
                          if host.marker == old(host.marker) then [] else [Change(MarkerAdded, host.FastPathOn())]
      ensures ok && desired.enabled ==> desired.markerSupported && host.marker && (changed <==> !old(host.marker))
      ensures desired.enabled ==>
                (ok <==> !f.cancelled && desired.markerSupported && !f.read
                         && (old(host.marker) || (!f.apply && !f.reread)))
      ensures !ok ==> !changed
    {
      if f.cancelled {
        return false, false;
      }
      if !desired.enabled {
        return false, true;
      }
      if !desired.markerSupported || f.read {
        return false, false;
      }
      if host.marker {
        return false, true;
      }
      if f.apply {
        return false, false;
      }
      host.AddMarker();
      if f.reread {
        return false, false;
      }
      return true, true;
    }

    /** The call of `EnsureEndpointMaps` in that loop, where the fast path counts as off. */
    method WriteEntries(desired: DesiredState, current: ActualState, e: Endpoint, mayFail: bool)
      returns (changed: bool, ok: bool)
      requires Valid() && desired.enabled
      modifies host`maps, host`log
      ensures Entered(order, desired, old(host.Now()), host.Now(), e, changed, ok)
      ensures !mayFail ==>
                (ok <==> SchemaSeen(current, IngressCache) && SchemaSeen(current, Devmap)
                         && EntriesFit(order, old(host.maps), desired, e))
    {
      var f: MapFaults, g: MapFaults := *, *;
      if !mayFail {
        f, g := NO_MAP_FAULTS, NO_MAP_FAULTS;
      }
      changed, ok := maps.EnsureEndpointMaps(desired, current, e, true, f, g);
      GentleByWrites(order, old(host.Now()), host.Now(), desired, e);
    }

    /** The endpoint's own filters. */
    method EnsureEndpointFilters(desired: DesiredState, current: ActualState, e: Endpoint, mayFail: bool)
      returns (changed: bool, ok: bool)
      requires Valid() && desired.enabled && SpeaksFor(current, host.View())
      modifies host`filters, host`log
      ensures Filtered(current, old(host.Now()), host.Now(), e, changed)
      ensures ok ==> EndpointSettled(host.filters, host.programs, e)
      ensures ok && !changed ==> host.filters == old(host.filters)
      ensures !mayFail ==>
                (ok <==> CurrentEndpoint(desired, e) && ValidEndpoint(e) && EndpointAvailable(current)
                         && EndpointAttachable(old(host.filters), host.programs, e))
    {
      var cancelled: bool, f: Tc.TcFaults, g: Tc.TcFaults := *, *, *;
      if !mayFail {
        cancelled := false;
        f, g := Tc.NO_TC_FAULTS.(position := f.position), Tc.NO_TC_FAULTS.(position := g.position);
      }
      SameSettled(current, host.programs, host.filters, e);
      changed, ok := endpoint.EnsureEndpoint(desired, current, e, cancelled, f, g);
      SameSettled(current, host.programs, host.filters, e);
      SameAttachable(current, host.programs, old(host.filters), host.filters);
      GentleByFilters(old(host.Now()), host.Now());
      if ok && !changed {
        ShownIsNotVacant(current, old(host.filters), e.peer, TcInitIn);
        ShownIsNotVacant(current, old(host.filters), e.host, TcMasq);
      }
    }

    /** One turn of the loop over the endpoints. */
    method EnsureOne(desired: DesiredState, current: ActualState, e: Endpoint, mayFail: bool)
      returns (changed: bool, ok: bool)
      requires Valid() && desired.enabled && SpeaksFor(current, host.View())
      modifies host`filters, host`maps, host`log
      ensures CalmTurn(order, desired, current, old(host.Now()), host.Now(), e, changed)
      ensures ok ==> Turn(order, desired, old(host.View()), host.View(), e, changed)
      ensures !mayFail ==> (ok <==> Ensurable(current) && Feasible(order, old(host.View()), desired, e))
    {
      ghost var before := host.Now();
      changed, ok := EnsureEndpointFilters(desired, current, e, mayFail);
      ghost var mid := host.Now();
      if !ok {
        HalfATurn(order, desired, current, before, mid, e, changed);
        return;
      }
      var mapChanged;
      mapChanged, ok := WriteEntries(desired, current, e, mayFail);
      HalvesMakeATurn(order, desired, current, before, mid, host.Now(), e, changed, mapChanged, ok);
      changed := changed || mapChanged;
    }

    /** The turn of one more endpoint. `start` is the host before the first turn. */
    method EnsureNext(desired: DesiredState, current: ActualState, uids: seq<string>, i: nat, mayFail: bool,
                      soFar: bool,
                      ghost start: HostState) returns (changed: bool, ok: bool)
      requires Valid() && desired.enabled && SpeaksFor(current, host.View())
      requires i < |uids| && uids[i] in desired.endpoints
      requires Progress(order, desired, start.pins, host.View(), uids[..i], soFar)
      requires Calm(order, desired, current, start, host.Now(), soFar)
      modifies host`filters, host`maps, host`log
      ensures Calm(order, desired, current, start, host.Now(), changed)
      ensures SpeaksFor(current, host.View())
      ensures ok ==> Progress(order, desired, start.pins, host.View(), uids[..i + 1], changed)
      ensures !mayFail ==>
                if ok then Ensurable(current) else !Ensurable(current) || !AllFeasible(order, start.pins, desired)
    {
      ghost var before := host.Now();
      ProgressKeepsFeasible(order, desired, start.pins, before.pins, uids[..i], soFar, uids[i]);
      changed, ok := EnsureOne(desired, current, desired.endpoints[uids[i]], mayFail);
      StillSpeaks(current, before, host.Now());
      CalmNext(order, desired, current, start, before, host.Now(), uids[i], soFar, changed);
      if ok {
        Prefixes(uids, i);
        TurnMakesProgress(order, desired, start.pins, before.pins, host.View(), uids[..i], uids[i], soFar, changed);
      }
      changed := soFar || changed;
    }

    /** The loop over the endpoints, in UID order. */
    method EnsureEach(desired: DesiredState, current: ActualState, mayFail: bool) returns (changed: bool, ok: bool)
      requires Valid() && desired.enabled && SpeaksFor(current, host.View())
      modifies host`filters, host`maps, host`log
      ensures EachEnsured(order, desired, current, mayFail, old(host.Now()), host.Now(), changed, ok)
    {
      var uids := Order.Sort(desired.endpoints.Keys);
      changed := false;
      ghost var start := host.Now();
      GentleReflexive(start);
      NoProgress(order, desired, start.pins);
      var i := 0;
      while i < |uids|
        invariant 0 <= i <= |uids|
        invariant Calm(order, desired, current, start, host.Now(), changed)
        invariant Progress(order, desired, start.pins, host.View(), uids[..i], changed)
        invariant SpeaksFor(current, host.View())
        invariant 0 < i && !mayFail ==> Ensurable(current)
      {
        changed, ok := EnsureNext(desired, current, uids, i, mayFail, changed, start);
        if !ok {
          return;
        }
        i := i + 1;
      }
      Prefixes(uids, i);
      ProgressIsComplete(order, desired, start.pins, host.View(), uids, changed);
      HeldAreFeasible(order, host.View(), desired);
      ok := true;
    }

    /** The node's own filters. */
    method EnsureNode(desired: DesiredState, current: ActualState, mayFail: bool) returns (changed: bool, ok: bool)
      requires Valid() && desired.enabled && SpeaksFor(current, host.View())
      modifies host`filters, host`log
      ensures NodeEnsured(desired, current, mayFail, old(host.Now()), host.Now(), changed, ok)
    {
      var cancelled: bool, f: Tc.TcFaults, g: Tc.TcFaults := *, *, *;
      if !mayFail {
        cancelled := false;
        f, g := Tc.NO_TC_FAULTS.(position := f.position), Tc.NO_TC_FAULTS.(position := g.position);
      }
      SameBase(current, host.programs, host.filters, desired);
      changed, ok := base.EnsureBase(desired, current, cancelled, f, g);
      SameBase(current, host.programs, host.filters, desired);
      SameAttachable(current, host.programs, old(host.filters), host.filters);
      GentleByFilters(old(host.Now()), host.Now());
      if ok && !changed {
        ShownIsNotVacant(current, old(host.filters), desired.underlay, TcInitE);
        ShownIsNotVacant(current, old(host.filters), desired.underlay, TcRestore);
      }
    }

    /** The passes that start from the second scan. */
    method EnsureLinks(desired: DesiredState, current: ActualState, mayFail: bool) returns (changed: bool, ok: bool)
      requires Valid() && desired.enabled && SpeaksFor(current, host.View())
      modifies host`filters, host`maps, host`log
      ensures LinksEnsured(order, desired, current, mayFail, old(host.Now()), host.Now(), changed, ok)
    {
      ghost var a := host.Now();
      changed, ok := EnsureNode(desired, current, mayFail);
      ghost var b, one := host.Now(), changed;
      if !ok {
        NodeFailed(order, desired, current, mayFail, a, b, changed);
        return;
      }
      StillSpeaks(current, a, b);
      var more;
      more, ok := EnsureEach(desired, current, mayFail);
      NodeThenEach(order, desired, current, mayFail, a, b, host.Now(), one, more, ok);
      changed := changed || more;
    }

    /** The second scan and all that follows it. */
    method EnsureFromScan(desired: DesiredState, mayFail: bool) returns (changed: bool, ok: bool)
      requires Valid() && desired.enabled
      modifies host`filters, host`maps, host`log
      ensures Scanned(Place(), desired, mayFail, old(host.Now()), host.Now(), changed, ok)
    {
      var fails: bool := *;
      ghost var before := host.Now();
      if Stable(order, before.pins, desired, observer.links) {
        StableIsReady(order, before.pins, desired, observer.links);
      }
      ScanSees(before.pins, observer.links);
      ScanIsTruthful(before.pins, observer.links);
      var current := observer.Scan(mayFail && fails);
      if current.None? {
        GentleReflexive(before);
        return false, false;
      }
      changed, ok := EnsureLinks(desired, current.value, mayFail);
      ReadableStill(before.pins, host.View());
    }

    /** The collection. */
    method EnsureLoaded(desired: DesiredState, actual: ActualState, ids: KernelIds, mayFail: bool)
      returns (changed: bool, ok: bool)
      requires Valid() && desired.enabled
      modifies host`maps, host`programs, host`control, host`log
      ensures Collected(Place(), CollectionReady(actual), ids, mayFail, old(host.Now()), host.Now(), changed, ok)
    {
      var f: LoadFaults := *;
      if mayFail {
        f := f.(programIds := ids.programs, mapIds := ids.maps);
      } else {
        f := NO_LOAD_FAULTS.(programIds := ids.programs, mapIds := ids.maps);
      }
      ghost var a, site := host.Now(), Place();
      changed, ok := collection.EnsureCollection(desired, actual, f);
      if CollectionReady(actual) {
        ReadyIsCollected(site, ids, mayFail, a, ok);
      } else {
        LoadedIsCollected(site, ids, mayFail, f, a, host.Now(), ok);
      }
    }

    /** The marker rule. */
    method EnsureMarked(desired: DesiredState, mayFail: bool) returns (changed: bool, ok: bool)
      requires desired.enabled
      modifies host`marker, host`log
      ensures Marked(desired, mayFail, old(host.Now()), host.Now(), changed, ok)
    {
      var f: MarkerFaults := *;
      if !mayFail {
        f := MarkerFaults(false, false, false, false);
      }
      changed, ok := EnsureMarker(desired, f);
    }

    /** Up to the second scan: the collection and the marker rule. */
    method EnsureCollectionAndMarker(desired: DesiredState, actual: ActualState, ids: KernelIds, mayFail: bool)
      returns (changed: bool, ok: bool)
      requires Valid() && desired.enabled
      modifies host`maps, host`programs, host`control, host`marker, host`log
      ensures Loaded(Place(), desired, CollectionReady(actual), ids, mayFail, old(host.Now()), host.Now(), changed, ok)
    {
      ghost var site, ready, before := Place(), CollectionReady(actual), host.Now();
      changed, ok := EnsureLoaded(desired, actual, ids, mayFail);
      ghost var mid := host.Now();
      if !ok {
        return;
      }
      var more;
      more, ok := EnsureMarked(desired, mayFail);
      CollectedAndMarked(site, desired, ready, ids, mayFail, before, mid, host.Now(), changed, more, ok);
      changed := changed || more;
    }

    /** The pass itself. */
    method EnsureEnabled(desired: DesiredState, actual: ActualState, ids: KernelIds, mayFail: bool)
      returns (changed: bool, ok: bool)
      requires Valid() && desired.enabled
      modifies host`maps, host`programs, host`filters, host`control, host`marker, host`log
      ensures Careful(old(host.Now()), host.Now())
      ensures Outcome(Place(), desired, CollectionReady(actual), ids, mayFail, old(host.Now()), host.Now(), changed, ok)
    {
      ghost var site, ready, before := Place(), CollectionReady(actual), host.Now();
      changed, ok := EnsureCollectionAndMarker(desired, actual, ids, mayFail);
      ghost var mid := host.Now();
      if !ok {
        LoadingFailed(site, desired, ready, ids, mayFail, before, mid, changed);
        return;
      }
      var more;
      more, ok := EnsureFromScan(desired, mayFail);
      ScannedIsOutcome(site, desired, ready, ids, mayFail, before, mid, host.Now(), changed, more, ok);
      changed := changed || more;
    }

    /** `Ensure`. Nothing that was there is changed or removed, save map entries; everything
        is done with the fast path off if it was off; and a stable host is left as it is.
        When nothing fails, it succeeds exactly if nothing stands in its way. */
    method Ensure(desired: DesiredState, actual: ActualState, ids: KernelIds, mayFail: bool)
      returns (changed: bool, ok: bool)
      requires Valid()
      modifies host`maps, host`programs, host`filters, host`control, host`marker, host`log
      ensures Careful(old(host.Now()), host.Now())
      ensures !desired.enabled ==> !changed && host.Now() == old(host.Now()) && (!mayFail ==> ok)
      ensures desired.enabled ==>
                Outcome(Place(), desired, CollectionReady(actual), ids, mayFail, old(host.Now()), host.Now(),
                        changed, ok)
    {
      var cancelled: bool := *;
      if mayFail && cancelled {
        CarefulReflexive(host.Now());
        return false, false;
      }
      if !desired.enabled {
        CarefulReflexive(host.Now());
        return false, true;
      }
      changed, ok := EnsureEnabled(desired, actual, ids, mayFail);
    }

    /** `Verify`. */
    method Verify(desired: DesiredState, mayFail: bool) returns (ok: bool)
      requires Valid()
      ensures ok ==> Verifiable(Place(), host.Now(), desired)
      ensures !mayFail && Verifiable(Place(), host.Now(), desired) ==> ok
    {
      var fails: bool := *;
      var actual := observer.Scan(mayFail && fails);
      if actual.None? {
        return false;
      }
      ok := VerifyState(desired, actual.value);
    }

    /** `Commit`: another scan, and only what passes verification is committed. The record
        may be in place even though the call fails. */
    method Commit(desired: DesiredState, mayFail: bool) returns (ok: bool)
      requires Valid()
      modifies host`ownership
      ensures ok ==> Recorded(Place(), host.Now(), desired)
      ensures host.ownership == old(host.ownership) || Recorded(Place(), host.Now(), desired)
      ensures !mayFail && old(Verifiable(Place(), host.Now(), desired)) ==> ok
    {
      var fails: bool, fault: CommitFault := *, *;
      var actual := observer.Scan(mayFail && fails);
      if actual.None? {
        return false;
      }
      ok := VerifyState(desired, actual.value);
      if !ok {
        return;
      }
      var own := OwnershipState(desired, actual.value);
      if mayFail && fault == BeforeRename {
        return false;
      }
      host.ownership := Some(own);
      if mayFail && fault == AfterRename {
        return false;
      }
    }

    /** `Publish`. */
    method Publish(desired: DesiredState, mayFail: bool) returns (ok: bool)
      requires Valid()
      modifies host`control, host`published
      ensures host.published == old(host.published) + if ok then [host.control] else []
      ensures ok ==> config.heartbeat != 0 && config.timeout != 0 && ControlMap in host.maps
                     && host.control == Control(ABI_VERSION, 1, desired.generation,
                                                config.heartbeat, config.timeout, config.flags)
      ensures !ok ==> host.control == old(host.control)
      ensures (!mayFail && config.heartbeat != 0 && config.timeout != 0 && ControlMap in host.maps
               && old(host.control).abiVersion == ABI_VERSION) ==> ok
    {
      var f: ControlWriter.ControlFaults := *;
      if !mayFail {
        f := ControlWriter.NO_CONTROL_FAULTS;
      }
      ok := writer.Publish(desired.generation, config.heartbeat, config.timeout, config.flags, f);
    }
  }
}
