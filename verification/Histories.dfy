/** Sequences of reconcile runs on one host, with any traffic in between. */
module Histories {
  import opened Caches
  import opened Kernel
  import opened Observation
  import opened Tc
  import opened PinManager
  import opened Ensurers
  import opened ControlWriter
  import opened Passes
  import opened Backend
  import opened Reconciler
  import opened Availability

  /** One run of the agent, with its own links and configuration, or traffic between runs. */
  datatype Entry =
    | Ran(site: Site, run: Run, actions: seq<Action>, changed: bool, ok: bool)
    | Traffic

  /** Entry `i` takes the host from `states[i]` to `states[i + 1]`. */
  ghost predicate History(states: seq<HostState>, entries: seq<Entry>) {
    && |states| == |entries| + 1
    && forall i :: 0 <= i < |entries| ==> Happened(states[i], states[i + 1], entries[i])
  }

  ghost predicate Happened(a: HostState, b: HostState, e: Entry) {
    match e
    case Ran(site, run, actions, changed, ok) => Reconciled(site, a, b, run, actions, changed, ok)
    case Traffic => Trafficked(a, b)
  }

  /** Packets and evictions change entries of the agent's maps, except for the control map. */
  ghost predicate Trafficked(a: HostState, b: HostState) {
    && b == a.(pins := a.pins.(maps := b.pins.maps)) && SameShape(a.pins.maps, b.pins.maps)
    && forall name :: name in a.pins.maps && BeyondTraffic(name) ==> b.pins.maps[name] == a.pins.maps[name]
  }

  predicate BeyondTraffic(name: MapName) {
    name == ControlMap || name !in SCHEMA
  }

  // ---- When the fast path is on ----

  /** A run ends with the fast path on exactly when it succeeded, or when the fast path was
      on and could not be disabled. */
  lemma OnAfterARun(a: HostState, b: HostState, e: Entry)
    requires e.Ran? && Happened(a, b, e)
    ensures b.On() <==> e.ok || (a.On() && !DisableWorks(a, e.run.disable))
    ensures e.ok ==> DisableWorks(a, e.run.disable)
  {
    assert e.ok ==> e.actions[0].completed;
  }

  /** So a failed run does not always end with the fast path off: when the control map
      cannot be updated, the agent is in its disabled state and the fast path still on. */
  lemma DisableFailureLeavesItOn(a: HostState, b: HostState, e: Entry)
    requires e.Ran? && Happened(a, b, e) && a.On()
    requires e.run.disable == NO_CONTROL_FAULTS.(update := true)
    ensures !e.ok && b.On()
  {
    OnAfterARun(a, b, e);
  }

  /** Entry `j` is a run that switched the fast path on, and at state `i` the host still
      passes the verification of that run's desired state, whose record is the committed one
      and whose generation is the published one. No run in between succeeded, or could even
      disable the fast path. */
  ghost predicate OnSince(states: seq<HostState>, entries: seq<Entry>, j: nat, i: nat)
    requires j < i <= |entries| < |states|
  {
    && entries[j].Ran? && entries[j].ok
    && Published(entries[j].site, states[i], entries[j].run.found)
    && forall k :: j < k < i && entries[k].Ran? ==> !entries[k].ok && !DisableWorks(states[k], entries[k].run.disable)
  }

  lemma TrafficKeepsPublished(site: Site, a: HostState, b: HostState, found: DesiredState)
    requires Trafficked(a, b) && Published(site, a, found)
    ensures Published(site, b, found)
  {
    ScanIgnoresEntries(a.pins, b.pins, site.links);
  }

  /** One entry after which the fast path is on. */
  lemma OnAfterAnEntry(a: HostState, b: HostState, e: Entry)
    requires Happened(a, b, e) && b.On()
    ensures e.Ran? && e.ok ==> Published(e.site, b, e.run.found)
    ensures e.Ran? && !e.ok ==> b == a && !DisableWorks(a, e.run.disable)
    ensures e.Traffic? ==> a.On() && Trafficked(a, b)
  {
    if e.Ran? {
      OnAfterARun(a, b, e);
    }
  }

  lemma StillOn(states: seq<HostState>, entries: seq<Entry>, j: nat, i: nat)
    requires j < i < |entries| < |states| && OnSince(states, entries, j, i)
    requires entries[i].Ran? ==> !entries[i].ok && !DisableWorks(states[i], entries[i].run.disable)
    requires states[i + 1] == states[i] || Trafficked(states[i], states[i + 1])
    ensures OnSince(states, entries, j, i + 1)
  {
    if states[i + 1] != states[i] {
      TrafficKeepsPublished(entries[j].site, states[i], states[i + 1], entries[j].run.found);
    }
  }

  /** Over any sequence of runs, failing or cancelled anywhere, and of traffic between them:
      whenever the fast path is on, the last successful run switched it on, and the host
      passes the verification of what that run desired, recorded and published. */
  lemma {:induction false} EnabledImpliesCommitted(states: seq<HostState>, entries: seq<Entry>, i: nat) returns (j: nat)
    requires History(states, entries) && !states[0].On()
    requires i < |states| && states[i].On()
    ensures j < i && OnSince(states, entries, j, i)
    decreases i
  {
    var n := i - 1;
    OnAfterAnEntry(states[n], states[i], entries[n]);
    if entries[n].Ran? && entries[n].ok {
      j := n;
    } else {
      j := EnabledImpliesCommitted(states, entries, n);
      StillOn(states, entries, j, n);
    }
  }

  lemma HistoryPrefix(states: seq<HostState>, entries: seq<Entry>)
    requires History(states, entries) && entries != []
    ensures History(states[..|entries|], entries[..|entries| - 1]) && states[..|entries|][0] == states[0]
    ensures Happened(states[|entries| - 1], states[|entries|], entries[|entries| - 1])
  {
  }

  function PublishedIn(e: Entry): seq<Control> {
    if e.Ran? then PublishedIf(e.site, e.run.found, e.ok) else []
  }

  /** The values the successful runs of a history publish. */
  function PublishedBy(entries: seq<Entry>): seq<Control> {
    if entries == [] then [] else PublishedBy(entries[..|entries| - 1]) + PublishedIn(entries[|entries| - 1])
  }

  lemma EntryPublishes(a: HostState, b: HostState, e: Entry)
    requires Happened(a, b, e)
    ensures b.published == a.published + PublishedIn(e)
  {
  }

  lemma Joined<T>(a: seq<T>, b: seq<T>, c: seq<T>)
    ensures a + b + c == a + (b + c)
  {
  }

  /** The fast path is switched on once by each successful run and never otherwise. */
  lemma {:induction false} OnlySuccessPublishes(states: seq<HostState>, entries: seq<Entry>)
    requires History(states, entries)
    ensures states[|entries|].published == states[0].published + PublishedBy(entries)
    decreases |entries|
  {
    var n := |entries|;
    if n > 0 {
      HistoryPrefix(states, entries);
      var before := PublishedBy(entries[..n - 1]);
      assert states[n - 1].published == states[0].published + before by {
        OnlySuccessPublishes(states[..n], entries[..n - 1]);
      }
      EntryPublishes(states[n - 1], states[n], entries[n - 1]);
      Joined(states[0].published, before, PublishedIn(entries[n - 1]));
    }
  }

  /** What the published record says. */
  lemma PublishedCovers(site: Site, h: HostState, found: DesiredState)
    requires Published(site, h, found)
    ensures h.ownership.Some? && Covers(h.ownership.value, found) && h.control.generation == found.generation
  {
    CommittedRecordCovers(found, ScanOf(h.pins, site.links));
  }

  // ---- What runs leave alone ----

  /** What runs and traffic leave alone: pins, filters, the marker rule and the content of
      maps that are not the agent's. Every change a run made was made with the fast path off. */
  ghost predicate Lasting(a: HostState, b: HostState) {
    && FiltersPreserved(b.pins.programs, a.pins.filters, b.pins.filters) && Kept(a.pins.programs, b.pins.programs)
    && MapsLast(a.pins.maps, b.pins.maps) && (a.pins.marker ==> b.pins.marker)
    && MadeWhileOff(a.log, b.log) && MapsFirst(a, b)
  }

  ghost predicate MapsLast(a: PinnedMaps, b: PinnedMaps) {
    && a.Keys <= b.Keys
    && forall name :: name in a ==>
         && b[name].id == a[name].id && b[name].descriptor == a[name].descriptor
         && (name !in SCHEMA ==> b[name] == a[name])
  }

  lemma LastingTransitive(a: HostState, b: HostState, c: HostState)
    requires Lasting(a, b) && Lasting(b, c)
    ensures Lasting(a, c)
  {
    PreservedTransitive(b.pins.programs, c.pins.programs, a.pins.filters, b.pins.filters, c.pins.filters);
  }

  lemma EntryLasts(a: HostState, b: HostState, e: Entry)
    requires Happened(a, b, e)
    ensures Lasting(a, b)
  {
    if e.Traffic? {
      PreservedReflexive(a.pins.programs, a.pins.filters);
    }
  }

  /** Over any sequence of runs and traffic every change a run made to a kernel object was
      made with the fast path off, and what was on the host at first is still there. */
  lemma {:induction false} RunsAreSteady(states: seq<HostState>, entries: seq<Entry>)
    requires History(states, entries)
    ensures Lasting(states[0], states[|entries|])
    decreases |entries|
  {
    var n := |entries|;
    if n == 0 {
      PreservedReflexive(states[0].pins.programs, states[0].pins.filters);
    } else {
      HistoryPrefix(states, entries);
      RunsAreSteady(states[..n], entries[..n - 1]);
      assert states[..n][n - 1] == states[n - 1];
      EntryLasts(states[n - 1], states[n], entries[n - 1]);
      LastingTransitive(states[0], states[n - 1], states[n]);
    }
  }

  /** Foreign filters survive any sequence of runs and traffic: no filter is lost, what was added has
      one of the four fixed identities, and handles stay unique at the fixed priority. */
  lemma ForeignFiltersSurvive(states: seq<HostState>, entries: seq<Entry>, key: LinkKey)
    requires History(states, entries)
    ensures var before, after := At(states[0].pins.filters, key), At(states[|entries|].pins.filters, key);
            && multiset(before) <= multiset(after)
            && (forall x :: x in multiset(after) - multiset(before) ==> Ours(x))
            && (UniqueHandles(before) ==> UniqueHandles(after))
  {
    RunsAreSteady(states, entries);
    assert GrownAt(states[0].pins.filters, states[|entries|].pins.filters, key);
  }

  // ---- Which maps the attached programs use ----

  /** The pinned programs of the collection use the pinned maps. */
  ghost predicate AllLinked(pins: Pins) {
    forall p :: p in REQUIRED_PROGRAMS && p in pins.programs ==> UsesPinned(pins.programs[p], V1_SCHEMA, pins.maps)
  }

  lemma LinkedStep(a: HostState, b: HostState, e: Entry)
    requires Happened(a, b, e) && AllLinked(a.pins)
    ensures AllLinked(b.pins)
  {
    EntryLinks(a, b, e);
    forall p | p in REQUIRED_PROGRAMS && p in b.pins.programs
      ensures UsesPinned(b.pins.programs[p], V1_SCHEMA, b.pins.maps)
    {
      if p in a.pins.programs {
        assert UsesPinned(a.pins.programs[p], V1_SCHEMA, a.pins.maps);
      }
    }
  }

  lemma EntryLinks(a: HostState, b: HostState, e: Entry)
    requires Happened(a, b, e)
    ensures Kept(a.pins.programs, b.pins.programs) && MapsLast(a.pins.maps, b.pins.maps)
    ensures PinsLinked(V1_SCHEMA, a.pins, b.pins)
  {
  }

  lemma {:induction false} StayLinked(states: seq<HostState>, entries: seq<Entry>)
    requires History(states, entries) && AllLinked(states[0].pins)
    ensures AllLinked(states[|entries|].pins)
    decreases |entries|
  {
    var n := |entries|;
    if n > 0 {
      HistoryPrefix(states, entries);
      StayLinked(states[..n], entries[..n - 1]);
      assert states[..n][n - 1] == states[n - 1];
      LinkedStep(states[n - 1], states[n], entries[n - 1]);
    }
  }

  /** Over any sequence of runs and traffic, from a host on which no program of the collection
      is pinned: every filter that was attached since runs a pinned program, and that program
      was loaded with the maps that are pinned, all of them. */
  lemma AttachedUseThePinnedMaps(states: seq<HostState>, entries: seq<Entry>, key: LinkKey, f: Filter)
    requires History(states, entries) && REQUIRED_PROGRAMS !! states[0].pins.programs.Keys
    requires f in At(states[|entries|].pins.filters, key) && f !in At(states[0].pins.filters, key)
    ensures var pins := states[|entries|].pins;
            && SCHEMA.Keys <= pins.maps.Keys
            && f.program in pins.programs && pins.programs[f.program].id == f.programId
            && pins.programs[f.program].maps == IdsOf(pins.maps, SCHEMA.Keys)
  {
    RunsAreSteady(states, entries);
    StayLinked(states, entries);
    var a, b := states[0].pins, states[|entries|].pins;
    assert GrownAt(a.filters, b.filters, key) && BackedAt(b.programs, a.filters, b.filters, key);
    OldOrAdded(At(a.filters, key), At(b.filters, key), f);
    assert f.program in REQUIRED_PROGRAMS && UsesPinned(b.programs[f.program], V1_SCHEMA, b.maps);
  }

  // ---- Runs in which nothing fails ----

  /** The exact condition, read off the host before the run: a run in which nothing fails
      succeeds exactly if the control map can be disabled, the heartbeat is configured,
      nothing stands in the way of the ensure pass, and every filter that the pass will find
      in one of its places has the name of its program, on links that are scanned. */
  lemma RunSucceedsExactly(a: HostState, b: HostState, e: Entry)
    requires e.Ran? && Happened(a, b, e) && !e.run.mayFail
    ensures e.ok <==> Clear(e.site, a, e.run)
  {
    FaultFreeRun(a, b, e);
    if DisableWorks(a, e.run.disable) && CanEnsure(e.site, a, e.run) {
      DoneIsVerified(e.site.order, Outlook(e.site, a, e.run), b.pins, e.run.found, e.site.links);
    }
  }

  lemma FaultFreeRun(a: HostState, b: HostState, e: Entry)
    requires e.Ran? && Happened(a, b, e)
    ensures FaultFree(e.site, a, b, e.run, e.ok)
  {
  }

  /** The first run on a bare host succeeds, if the state it discovers is complete and
      nothing fails. */
  lemma FirstRunSucceeds(a: HostState, b: HostState, e: Entry)
    requires e.Ran? && Happened(a, b, e) && a.pins == BARE && !e.run.mayFail && e.run.disable == NO_CONTROL_FAULTS
    requires WellDescribed(e.run.found, e.site.links) && RealIds(e.run.ids) && e.site.elf == V1_SCHEMA
    requires Configured(e.site)
    ensures e.ok
  {
    BareIsClear(e.site, a, e.run);
    RunSucceedsExactly(a, b, e);
  }

  lemma BareIsClear(site: Site, h: HostState, run: Run)
    requires h.pins == BARE && site.elf == V1_SCHEMA && run.disable == NO_CONTROL_FAULTS
    requires WellDescribed(run.found, site.links) && RealIds(run.ids) && Configured(site)
    ensures Clear(site, h, run)
  {
    BareIsUnseen(site, h, run);
    BareCanLoad(h.control);
    BareIsAvailable(site.order, run.found, site.links, run.ids);
    BareIsPresentable(run.found, site.links, run.ids);
  }

  lemma BareIsUnseen(site: Site, h: HostState, run: Run)
    requires h.pins == BARE && run.disable == NO_CONTROL_FAULTS
    ensures DisableWorks(h, run.disable) && !CollectionSeen(site, h) && Outlook(site, h, run) == LoadedBare(run.ids)
  {
    BareIsNotReady(site.links);
  }

  /** That the names are asked for is needed. On a loaded host with one filter under another
      name nothing stands in the way of the ensure pass, which reuses the filter by its
      program's ID; and every run in which nothing fails ends disabled, because verification
      misses the name. */
  lemma MisnamedFilterFailsTheRun(a: HostState, b: HostState, e: Entry, ids: KernelIds, name: string)
    requires e.Ran? && Happened(a, b, e) && !e.run.mayFail && e.run.disable == NO_CONTROL_FAULTS
    requires WellDescribed(e.run.found, e.site.links) && RealIds(ids)
    requires a.pins == Misnamed(e.run.found, ids, name) && a.control.abiVersion == ABI_VERSION
    ensures DisableWorks(a, e.run.disable) && CanEnsure(e.site, a, e.run) && !e.ok
  {
    MisnamedIsAvailable(e.site.order, e.run.found, e.site.links, ids, name);
    MisnamedIsNotShown(e.run.found, e.site.links, ids, name);
    RunSucceedsExactly(a, b, e);
  }

  lemma StableIsClear(site: Site, h: HostState, run: Run)
    requires Stable(site.order, h.pins, run.found, site.links)
    requires DisableWorks(h, run.disable) && Configured(site)
    ensures Clear(site, h, run)
  {
    StableCanEnsure(site, h, run);
    PreservedReflexive(h.pins.programs, h.pins.filters);
    SettledIsVerified(site.order, h.pins, h.pins, run.found, site.links);
  }

  lemma SecondRunSucceeds(s1: HostState, s2: HostState, second: Entry)
    requires second.Ran? && Happened(s1, s2, second) && Published(second.site, s1, second.run.found)
    requires Stable(second.site.order, s1.pins, second.run.found, second.site.links)
    requires second.run.disable == NO_CONTROL_FAULTS && !second.run.mayFail
    ensures second.ok && LeftAlone(second.site, s1, s2, second.run.found, second.changed)
  {
    assert DisableWorks(s1, NO_CONTROL_FAULTS);
    StableIsClear(second.site, s1, second.run);
    RunSucceedsExactly(s1, s2, second);
  }

  /** After a successful run, a run on the same inputs in which nothing fails succeeds and
      leaves pins, filters, map entries, control value and record as they are; it publishes
      the same value again. It reports no change, and writes nothing else, exactly when no two
      endpoints clash over an address. */
  lemma SecondRunIsANoOp(s0: HostState, s1: HostState, s2: HostState, first: Entry, second: Entry)
    requires first.Ran? && Happened(s0, s1, first) && first.ok
    requires second.Ran? && Happened(s1, s2, second) && second.site == first.site
    requires second.run == first.run.(disable := NO_CONTROL_FAULTS, mayFail := false)
    ensures second.ok
    ensures s2 == s1.(published := s1.published + [s1.control], log := s2.log)
    ensures second.changed <==> !NoAddressClash(first.site.order, first.run.found)
    ensures !second.changed ==> s2.log == s1.log
  {
    var site, found := first.site, first.run.found;
    SecondRunSucceeds(s1, s2, second);
    SamePublished(site, s1, s2, found);
    ChangedMeansClash(site, s0, s1, s2, first.run, first.changed, second.changed);
  }

  /** A run over the host that the run before it prepared. */
  lemma ChangedMeansClash(site: Site, s0: HostState, s1: HostState, s2: HostState, run: Run, once: bool, twice: bool)
    requires Prepared(site, s0, s1, run, once) && LeftAlone(site, s1, s2, run.found, twice)
    ensures s2.pins == s1.pins && (!twice ==> s2.log == s1.log)
    ensures twice <==> !NoAddressClash(site.order, run.found)
  {
    if !twice {
      ExactMeansNoClash(site.order, s1.pins.maps, run.found);
    }
  }

  /** Two published hosts with the same pins differ in nothing but their history. */
  lemma SamePublished(site: Site, a: HostState, b: HostState, found: DesiredState)
    requires Published(site, a, found) && Published(site, b, found)
    ensures a.pins == b.pins ==> b == a.(published := b.published, log := b.log)
  {
  }
}
