/** The seven-stage pipeline, and what sequences of its runs guarantee. */
module Reconciler {
  import opened Wrappers
  import opened Caches
  import opened Kernel
  import opened Links
  import opened Observation
  import opened PinManager
  import opened ControlWriter
  import opened Passes
  import opened Backend
  import opened Availability

  datatype AgentState = AgentBootstrapping | AgentDisabled | AgentReconciling | AgentReady

  datatype Stage = DisableStage | DiscoverStage | ScanStage | EnsureStage | VerifyStage | CommitStage | PublishStage

  const STAGES: seq<Stage> := [DisableStage, DiscoverStage, ScanStage, EnsureStage,
                               VerifyStage, CommitStage, PublishStage]

  datatype Action = Action(stage: Stage, completed: bool)

  const FIRST_FOUR_DONE := [Action(DisableStage, true), Action(DiscoverStage, true),
                            Action(ScanStage, true), Action(EnsureStage, true)]

  datatype ReconcileResult = ReconcileResult(generation: u64, changed: bool, actions: seq<Action>, state: AgentState)

  /** A prefix of the pipeline, not empty: every stage but the last completed, the last one
      only if the run succeeded, and then it is the whole pipeline. */
  predicate Pipeline(actions: seq<Action>, ok: bool) {
    && 0 < |actions| <= |STAGES| && (ok ==> |actions| == |STAGES|)
    && forall i :: 0 <= i < |actions| ==> actions[i] == Action(STAGES[i], i < |actions| - 1 || ok)
  }

  /** The actions of two stages in a row: the first alone when it did not complete. */
  predicate Two(actions: seq<Action>, first: Stage, second: Stage, ok: bool) {
    actions == [Action(first, true), Action(second, ok)] || (!ok && actions == [Action(first, false)])
  }

  /** What a run is given: what discovery finds, how the disable stage fares, the IDs of what
      it loads, and whether anything else may fail or be cancelled. */
  datatype Run = Run(found: DesiredState, disable: ControlFaults, ids: KernelIds, mayFail: bool)

  /** The disable stage goes through: no control map, or one that can be read and written
      and has the ABI of the agent. */
  predicate DisableWorks(h: HostState, f: ControlFaults) {
    && !f.cancelled && !f.stat
    && (ControlMap in h.pins.maps ==> Accessible(h.pins.maps, f) && h.control.abiVersion == ABI_VERSION)
  }

  /** The control value a run for `found` publishes. */
  function PublishedValue(site: Site, found: DesiredState): Control {
    Control(ABI_VERSION, 1, found.generation, site.config.heartbeat, site.config.timeout, site.config.flags)
  }

  function PublishedIf(site: Site, found: DesiredState, ok: bool): seq<Control> {
    if ok then [PublishedValue(site, found)] else []
  }

  /** The fast path is on for `found`, whose record is committed. */
  predicate Published(site: Site, h: HostState, found: DesiredState) {
    && Recorded(site, h, found) && h.On()
    && h.control == PublishedValue(site, found)
    && site.config.heartbeat != 0 && site.config.timeout != 0
  }

  /** What a run adds is added while the fast path is off, and nothing else is touched. */
  ghost predicate Steady(a: HostState, b: HostState) {
    Additive(a.pins, b.pins) && MadeWhileOff(a.log, b.log)
  }

  /** Filters are attached only where all maps of the collection are pinned. */
  predicate MapsFirst(a: HostState, b: HostState) {
    b.pins.filters == a.pins.filters || SCHEMA.Keys <= b.pins.maps.Keys
  }

  /** Neither the committed record nor the history of published values differs. */
  predicate SameRecords(a: HostState, b: HostState) {
    b.ownership == a.ownership && b.published == a.published
  }

  predicate CollectionSeen(site: Site, h: HostState) {
    CollectionReady(ScanOf(h.pins, site.links))
  }

  /** The host as the endpoint passes of a run will find it. */
  function Outlook(site: Site, h: HostState, run: Run): Pins {
    Expected(h.pins, CollectionSeen(site, h), run.ids)
  }

  /** Nothing stands in the way of the ensure stage. */
  predicate CanEnsure(site: Site, h: HostState, run: Run) {
    && run.found.enabled && run.found.markerSupported
    && (CollectionSeen(site, h) || CanLoad(site.elf, h.pins, h.control))
    && Available(site.order, Outlook(site, h, run), run.found, site.links)
  }

  predicate Configured(site: Site) {
    site.config.heartbeat != 0 && site.config.timeout != 0
  }

  /** Nothing stands in the way of a run in which nothing fails; all of it can be read off
      the host before the run. */
  predicate Clear(site: Site, h: HostState, run: Run) {
    && DisableWorks(h, run.disable) && Configured(site) && CanEnsure(site, h, run)
    && Presentable(Outlook(site, h, run), run.found, site.links)
  }

  /** The outcome of the first four stages. */
  ghost predicate Prepared(site: Site, a: HostState, b: HostState, run: Run, changed: bool) {
    && Done(site.order, Outlook(site, a, run), b.pins, run.found, site.links)
    && (NoAddressClash(site.order, run.found) || !changed ==> AllExact(site.order, b.pins.maps, run.found))
    && (!changed ==> b.pins == a.pins)
  }

  predicate ScanWorks(site: Site, h: HostState) {
    Readable(h.pins) && Reachable(Visited(site.links, {}))
  }

  /** A run that says it scanned could, and one that says it verified left a verified host. */
  predicate Honest(site: Site, a: HostState, b: HostState, found: DesiredState, actions: seq<Action>) {
    && (Action(ScanStage, true) in actions ==> ScanWorks(site, a))
    && (Action(VerifyStage, true) in actions ==> Verifiable(site, b, found))
  }

  /** A stable host after a pass that went well; control value, record and history of
      published values aside. */
  ghost predicate LeftAlone(site: Site, a: HostState, b: HostState, found: DesiredState, changed: bool) {
    && Quiet(site.order, found, a, b.(control := a.control, ownership := a.ownership, published := a.published),
             changed)
    && (Refreshed(site.order, a.pins.maps, found) ==> b.pins == a.pins)
    && (!changed ==> AllExact(site.order, a.pins.maps, found))
  }

  /** A run in which nothing fails, stage by stage: it prepares the host if the disable and
      ensure stages can do their work, and succeeds if the host it leaves is then verified. */
  ghost predicate FaultFree(site: Site, a: HostState, b: HostState, run: Run, ok: bool) {
    !run.mayFail ==>
      && (ok <==>
            && DisableWorks(a, run.disable) && CanEnsure(site, a, run) && Configured(site)
            && Verified(run.found, ScanOf(b.pins, site.links)))
      && (DisableWorks(a, run.disable) && CanEnsure(site, a, run) ==>
            Done(site.order, Outlook(site, a, run), b.pins, run.found, site.links))
  }

  /** What one run that entered the gate did. */
  ghost predicate Reconciled(site: Site, a: HostState, b: HostState, run: Run, actions: seq<Action>, changed: bool,
                             ok: bool) {
    && Steady(a, b) && MapsFirst(a, b) && b.published == a.published + PublishedIf(site, run.found, ok)
    && Pipeline(actions, ok) && actions[0].completed == DisableWorks(a, run.disable)
    && Honest(site, a, b, run.found, actions)
    && (!DisableWorks(a, run.disable) ==> b == a)
    && (DisableWorks(a, run.disable) && !ok ==>
          !b.On() && (b.ownership == a.ownership || Recorded(site, b, run.found)))
    && (ok ==>
          && Published(site, b, run.found) && Stable(site.order, b.pins, run.found, site.links)
          && Prepared(site, a, b, run, changed))
    && FaultFree(site, a, b, run, ok)
    && (ok && !run.mayFail && Stable(site.order, a.pins, run.found, site.links) ==>
         LeftAlone(site, a, b, run.found, changed))
  }

  lemma RunPublishes(site: Site, a: HostState, b: HostState, run: Run, actions: seq<Action>, changed: bool, ok: bool)
    requires Reconciled(site, a, b, run, actions, changed, ok)
    ensures b.published == a.published + PublishedIf(site, run.found, ok)
  {
  }

  lemma PipelineEnds(a: seq<Action>, b: seq<Action>, ok: bool)
    requires a == FIRST_FOUR_DONE
    requires (!ok && Two(b, VerifyStage, CommitStage, false))
             || b == [Action(VerifyStage, true), Action(CommitStage, true), Action(PublishStage, ok)]
    ensures Pipeline(a + b, ok)
  {
  }

  lemma PipelineCutShort(a: seq<Action>, b: seq<Action>, c: seq<Action>)
    ensures Two(a, DisableStage, DiscoverStage, false) ==> Pipeline(a, false)
    ensures Two(a, DisableStage, DiscoverStage, true) && Two(b, ScanStage, EnsureStage, false) ==>
              Pipeline(a + b, false)
    ensures (Two(a, DisableStage, DiscoverStage, true) && Two(b, ScanStage, EnsureStage, true)
             && Two(c, VerifyStage, CommitStage, false)) ==> Pipeline(a + b + c, false)
  {
  }

  /** The host after the disable stage. */
  ghost predicate Shut(a: HostState, b: HostState, run: Run) {
    && DisableWorks(a, run.disable)
    && b == a.(control := b.control) && !b.On()
    && (ControlMap in a.pins.maps ==> b.control.abiVersion == ABI_VERSION)
  }

  /** What the ensure stage did. */
  ghost predicate Ensured(site: Site, b: HostState, c: HostState, run: Run, changed: bool, ok: bool) {
    && MapsFirst(b, c) && Steady(b, c) && !c.On() && SameRecords(b, c)
    && (ok && run.found.enabled ==>
          Prepared(site, b, c, run, changed)
          && ((ControlMap in b.pins.maps ==> b.control.abiVersion == ABI_VERSION) ==>
               c.control.abiVersion == ABI_VERSION))
    && (!run.mayFail && run.found.enabled ==> (ok <==> CanEnsure(site, b, run)))
    && (ok && Stable(site.order, b.pins, run.found, site.links) ==> LeftAlone(site, b, c, run.found, changed))
  }

  /** A stable host is one the ensure stage can work on. */
  lemma StableCanEnsure(site: Site, h: HostState, run: Run)
    requires Stable(site.order, h.pins, run.found, site.links)
    ensures CollectionSeen(site, h) && Outlook(site, h, run) == h.pins && CanEnsure(site, h, run)
  {
    StableIsReady(site.order, h.pins, run.found, site.links);
  }

  lemma ReadyHasMaps(site: Site, h: HostState)
    requires CollectionSeen(site, h)
    ensures SCHEMA.Keys <= h.pins.maps.Keys
  {
    forall name | name in SCHEMA
      ensures name in h.pins.maps
    {
      assert MapVerified(ScanOf(h.pins, site.links).maps, name);
    }
  }

  /** `Outcome` at this site. */
  ghost predicate Came(site: Site, b: HostState, c: HostState, run: Run, changed: bool, ok: bool) {
    Outcome(site, run.found, CollectionSeen(site, b), run.ids, run.mayFail, b, c, changed, ok)
  }

  lemma OutcomePrepares(site: Site, b: HostState, c: HostState, run: Run, changed: bool)
    requires Came(site, b, c, run, changed, true)
    ensures Prepared(site, b, c, run, changed)
    ensures (ControlMap in b.pins.maps ==> b.control.abiVersion == ABI_VERSION) ==> c.control.abiVersion == ABI_VERSION
  {
    if CollectionSeen(site, b) {
      ReadyHasMaps(site, b);
    }
  }

  lemma OutcomeLeavesAlone(site: Site, b: HostState, c: HostState, run: Run, changed: bool)
    requires Came(site, b, c, run, changed, true) && Stable(site.order, b.pins, run.found, site.links)
    ensures LeftAlone(site, b, c, run.found, changed)
  {
    StableCanEnsure(site, b, run);
  }

  lemma OutcomeAttachesLast(site: Site, b: HostState, c: HostState, run: Run, changed: bool, ok: bool)
    requires Steady(b, c) && Came(site, b, c, run, changed, ok)
    ensures MapsFirst(b, c)
  {
    if CollectionSeen(site, b) {
      ReadyHasMaps(site, b);
    }
  }

  lemma OutcomeIsExact(site: Site, b: HostState, c: HostState, run: Run, changed: bool, ok: bool)
    requires Came(site, b, c, run, changed, ok) && run.found.enabled && !run.mayFail
    ensures ok <==> CanEnsure(site, b, run)
  {
  }

  lemma OutcomeIsEnsured(site: Site, b: HostState, c: HostState, run: Run, changed: bool, ok: bool)
    requires Steady(b, c) && !c.On() && SameRecords(b, c) && run.found.enabled
    requires Came(site, b, c, run, changed, ok)
    ensures Ensured(site, b, c, run, changed, ok)
  {
    OutcomeAttachesLast(site, b, c, run, changed, ok);
    if !run.mayFail {
      OutcomeIsExact(site, b, c, run, changed, ok);
    }
    if ok {
      OutcomePrepares(site, b, c, run, changed);
      if Stable(site.order, b.pins, run.found, site.links) {
        OutcomeLeavesAlone(site, b, c, run, changed);
      }
    }
  }

  lemma NothingAsked(site: Site, b: HostState, c: HostState, run: Run, changed: bool, ok: bool)
    requires Steady(b, c) && !c.On() && SameRecords(b, c) && !run.found.enabled && c.pins.filters == b.pins.filters
    ensures Ensured(site, b, c, run, changed, ok)
  {
  }

  /** Where the first scan fails, so does the second. */
  lemma UnreadableCannotEnsure(site: Site, h: HostState, run: Run)
    requires !Readable(h.pins) || !Reachable(Visited(site.links, {}))
    ensures !CanEnsure(site, h, run)
  {
    if !Readable(h.pins) {
      var name :| name in SCHEMA && name in h.pins.maps && h.pins.maps[name].descriptor != SCHEMA[name];
      assert Outlook(site, h, run).maps[name] == h.pins.maps[name];
    }
  }

  lemma NothingEnsured(site: Site, b: HostState, run: Run)
    requires !b.On() && (run.mayFail || !Readable(b.pins) || !Reachable(Visited(site.links, {})))
    ensures Ensured(site, b, b, run, false, false)
  {
    AdditiveReflexive(b.pins);
    if !run.mayFail {
      UnreadableCannotEnsure(site, b, run);
    }
  }

  /** Disabling the fast path leaves everything else as it was. */
  lemma ShutChangesNothingElse(site: Site, a: HostState, b: HostState, run: Run)
    requires Shut(a, b, run)
    ensures CanEnsure(site, a, run) <==> CanEnsure(site, b, run)
    ensures Outlook(site, a, run) == Outlook(site, b, run)
  {
  }

  lemma PreparedFromTheStart(site: Site, a: HostState, b: HostState, c: HostState, run: Run, changed: bool)
    requires Shut(a, b, run) && Prepared(site, b, c, run, changed)
    ensures Prepared(site, a, c, run, changed)
  {
    ShutChangesNothingElse(site, a, b, run);
  }

  lemma LeftAloneFromTheStart(site: Site, a: HostState, b: HostState, c: HostState, run: Run, changed: bool)
    requires Shut(a, b, run) && LeftAlone(site, b, c, run.found, changed)
    ensures LeftAlone(site, a, c, run.found, changed)
  {
  }

  lemma EnsuredIsLaid(site: Site, a: HostState, b: HostState, c: HostState, run: Run, changed: bool)
    requires Shut(a, b, run) && Ensured(site, b, c, run, changed, true)
    ensures Laid(site, a, c, run, changed)
  {
    if run.found.enabled {
      PreparedFromTheStart(site, a, b, c, run, changed);
      ShutChangesNothingElse(site, a, b, run);
    }
    if Stable(site.order, a.pins, run.found, site.links) {
      LeftAloneFromTheStart(site, a, b, c, run, changed);
    }
  }

  lemma HonestFailure(site: Site, a: HostState, b: HostState, c: HostState, run: Run, first: seq<Action>,
                      more: seq<Action>)
    requires Two(first, DisableStage, DiscoverStage, true) && Two(more, ScanStage, EnsureStage, false)
    requires Shut(a, b, run) && (more[0].completed ==> ScanWorks(site, b))
    ensures Honest(site, a, c, run.found, first + more)
  {
  }

  lemma EnsureFailed(site: Site, a: HostState, b: HostState, c: HostState, run: Run, first: seq<Action>,
                     more: seq<Action>, changed: bool)
    requires Shut(a, b, run) && Ensured(site, b, c, run, changed, false)
    requires Two(first, DisableStage, DiscoverStage, true) && Two(more, ScanStage, EnsureStage, false)
    requires more[0].completed ==> ScanWorks(site, b)
    ensures Reconciled(site, a, c, run, first + more, changed, false)
  {
    ShutChangesNothingElse(site, a, b, run);
    PipelineCutShort(first, more, []);
    HonestFailure(site, a, b, c, run, first, more);
    Fails(site, a, c, run, first + more, changed);
  }

  /** The host after the ensure stage. */
  ghost predicate Laid(site: Site, a: HostState, c: HostState, run: Run, changed: bool) {
    && DisableWorks(a, run.disable)
    && MapsFirst(a, c) && Steady(a, c) && !c.On() && SameRecords(a, c)
    && (run.found.enabled ==>
          && Prepared(site, a, c, run, changed) && c.control.abiVersion == ABI_VERSION
          && (!run.mayFail ==> CanEnsure(site, a, run)))
    && (Stable(site.order, a.pins, run.found, site.links) ==> LeftAlone(site, a, c, run.found, changed))
  }

  lemma EndsBeforeScan(site: Site, a: HostState, b: HostState, run: Run, actions: seq<Action>, changed: bool)
    requires Two(actions, DisableStage, DiscoverStage, false) && actions[0].completed == DisableWorks(a, run.disable)
    requires if DisableWorks(a, run.disable) then Shut(a, b, run) && run.mayFail else b == a
    ensures Reconciled(site, a, b, run, actions, changed, false)
  {
    AdditiveReflexive(a.pins);
    PipelineCutShort(actions, [], []);
  }

  lemma Fails(site: Site, a: HostState, b: HostState, run: Run, actions: seq<Action>, changed: bool)
    requires DisableWorks(a, run.disable) && MapsFirst(a, b) && Steady(a, b) && !b.On()
    requires run.mayFail || !CanEnsure(site, a, run)
    requires b.published == a.published && (b.ownership == a.ownership || Recorded(site, b, run.found))
    requires Pipeline(actions, false) && actions[0].completed && Honest(site, a, b, run.found, actions)
    ensures Reconciled(site, a, b, run, actions, changed, false)
  {
  }

  /** What the last three stages did. */
  ghost predicate Finished(site: Site, c: HostState, e: HostState, run: Run, ok: bool) {
    && e == c.(control := e.control, ownership := e.ownership, published := e.published)
    && e.published == c.published + (if ok then [e.control] else [])
    && (ok ==> Published(site, e, run.found))
    && (!ok ==> e.control == c.control && (e.ownership == c.ownership || Recorded(site, e, run.found)))
    && ((!run.mayFail && Verifiable(site, c, run.found) && Configured(site)
         && c.control.abiVersion == ABI_VERSION) ==> ok)
  }

  /** What the verify and commit stages did. */
  predicate CommitStep(site: Site, c: HostState, d: HostState, run: Run, ok: bool) {
    && d == c.(ownership := d.ownership)
    && (d.ownership == c.ownership || Recorded(site, d, run.found))
    && (ok ==> Recorded(site, d, run.found))
    && (!run.mayFail && Verifiable(site, c, run.found) ==> ok)
  }

  /** What the publish stage did. */
  predicate PublishStep(site: Site, d: HostState, e: HostState, run: Run, ok: bool) {
    && e == d.(control := e.control, published := e.published)
    && e.published == d.published + (if ok then [e.control] else [])
    && (!ok ==> e.control == d.control)
    && (ok ==> Published(site, e, run.found))
    && (!run.mayFail && Configured(site) && d.control.abiVersion == ABI_VERSION ==> ok)
  }

  lemma NotCommitted(site: Site, c: HostState, d: HostState, run: Run)
    requires CommitStep(site, c, d, run, false)
    ensures Finished(site, c, d, run, false)
  {
  }

  lemma CommittedThenPublished(site: Site, c: HostState, d: HostState, e: HostState, run: Run, ok: bool)
    requires CommitStep(site, c, d, run, true) && PublishStep(site, d, e, run, ok)
    ensures Finished(site, c, e, run, ok)
  {
  }

  /** The last three stages touch no pin, entry or filter. */
  lemma PreparedAtTheEnd(site: Site, a: HostState, c: HostState, e: HostState, run: Run, changed: bool, ok: bool)
    requires Prepared(site, a, c, run, changed) && Finished(site, c, e, run, ok)
    ensures Prepared(site, a, e, run, changed)
  {
  }

  lemma LeftAloneAtTheEnd(site: Site, a: HostState, c: HostState, e: HostState, run: Run, changed: bool, ok: bool)
    requires LeftAlone(site, a, c, run.found, changed) && Finished(site, c, e, run, ok)
    ensures LeftAlone(site, a, e, run.found, changed)
  {
  }

  lemma FaultFreeAtTheEnd(site: Site, a: HostState, c: HostState, e: HostState, run: Run, changed: bool, ok: bool)
    requires Laid(site, a, c, run, changed) && Finished(site, c, e, run, ok)
    ensures FaultFree(site, a, e, run, ok)
  {
  }

  lemma SteadyAtTheEnd(site: Site, a: HostState, c: HostState, e: HostState, run: Run, ok: bool)
    requires Steady(a, c) && MapsFirst(a, c) && Finished(site, c, e, run, ok)
    ensures Steady(a, e) && MapsFirst(a, e)
  {
  }

  lemma StableAtTheEnd(site: Site, a: HostState, e: HostState, run: Run, changed: bool)
    requires Prepared(site, a, e, run, changed) && Published(site, e, run.found)
    ensures Stable(site.order, e.pins, run.found, site.links)
  {
  }

  lemma RunSucceeded(site: Site, a: HostState, c: HostState, e: HostState, run: Run, actions: seq<Action>,
                     changed: bool)
    requires Laid(site, a, c, run, changed) && Finished(site, c, e, run, true) && Pipeline(actions, true)
    requires FaultFree(site, a, e, run, true) && Prepared(site, a, e, run, changed)
    requires Honest(site, a, e, run.found, actions)
    ensures Reconciled(site, a, e, run, actions, changed, true)
  {
    SteadyAtTheEnd(site, a, c, e, run, true);
    StableAtTheEnd(site, a, e, run, changed);
    if Stable(site.order, a.pins, run.found, site.links) {
      LeftAloneAtTheEnd(site, a, c, e, run, changed, true);
    }
  }

  /** What the stages say, put together. */
  lemma HonestTogether(site: Site, a: HostState, c: HostState, e: HostState, run: Run, first: seq<Action>,
                       more: seq<Action>, ok: bool)
    requires first == FIRST_FOUR_DONE && ScanWorks(site, a) && Finished(site, c, e, run, ok)
    requires Action(VerifyStage, true) in more ==> Verifiable(site, c, run.found)
    requires (!ok && Two(more, VerifyStage, CommitStage, false))
             || more == [Action(VerifyStage, true), Action(CommitStage, true), Action(PublishStage, ok)]
    ensures Honest(site, a, e, run.found, first + more)
  {
  }

  lemma RunEnds(site: Site, a: HostState, c: HostState, e: HostState, run: Run, actions: seq<Action>, changed: bool,
                ok: bool)
    requires Laid(site, a, c, run, changed) && Finished(site, c, e, run, ok)
    requires Pipeline(actions, ok) && actions[0].completed && Honest(site, a, e, run.found, actions)
    ensures Reconciled(site, a, e, run, actions, changed, ok)
  {
    FaultFreeAtTheEnd(site, a, c, e, run, changed, ok);
    if ok {
      PreparedAtTheEnd(site, a, c, e, run, changed, ok);
      RunSucceeded(site, a, c, e, run, actions, changed);
    }
  }

  class Coordinator {
    const backend: FirstPassBackend
    const host: Host
    var state: AgentState

    constructor (backend: FirstPassBackend)
      ensures this.backend == backend && host == backend.host && state == AgentBootstrapping
    {
      this.backend := backend;
      host := backend.host;
      state := AgentBootstrapping;
    }

    predicate Valid() {
      backend.Valid() && host == backend.host
    }

    function Place(): Site {
      backend.Place()
    }

    ghost function Now(): HostState
      reads host
    {
      host.Now()
    }

    /** The disable and discover stages. */
    method DisableAndDiscover(run: Run) returns (actions: seq<Action>, ok: bool)
      requires Valid()
      modifies host`control
      ensures Two(actions, DisableStage, DiscoverStage, ok)
      ensures actions[0].completed == DisableWorks(old(Now()), run.disable)
      ensures actions[0].completed ==> !run.disable.cancelled && !run.disable.stat
      ensures if DisableWorks(old(Now()), run.disable) then Shut(old(Now()), Now(), run) else Now() == old(Now())
      ensures !run.mayFail && DisableWorks(old(Now()), run.disable) ==> ok
    {
      if run.disable.cancelled {
        return [Action(DisableStage, false)], false;
      }
      ok := backend.writer.DisableIfPinned(run.disable);
      if !ok {
        return [Action(DisableStage, false)], false;
      }
      var cancelled: bool, fails: bool := *, *;
      ok := !run.mayFail || !(cancelled || fails);
      actions := [Action(DisableStage, true), Action(DiscoverStage, ok)];
    }

    /** The ensure stage, with what the scan stage found. */
    method EnsureScanned(run: Run, actual: ActualState) returns (changed: bool, ok: bool)
      requires Valid() && !Now().On()
      requires actual == ScanOf(host.View(), backend.observer.links)
      modifies host`maps, host`programs, host`filters, host`control, host`marker, host`log
      ensures Ensured(Place(), old(Now()), Now(), run, changed, ok)
    {
      ghost var b, site := Now(), Place();
      changed, ok := backend.Ensure(run.found, actual, run.ids, run.mayFail);
      if run.found.enabled {
        OutcomeIsEnsured(site, b, Now(), run, changed, ok);
      } else {
        NothingAsked(site, b, Now(), run, changed, ok);
      }
    }

    /** The scan and ensure stages. */
    method ScanAndEnsure(run: Run) returns (actions: seq<Action>, changed: bool, ok: bool)
      requires Valid() && !Now().On()
      modifies host`maps, host`programs, host`filters, host`control, host`marker, host`log
      ensures Two(actions, ScanStage, EnsureStage, ok)
      ensures actions[0].completed ==> ScanWorks(Place(), old(Now()))
      ensures Ensured(Place(), old(Now()), Now(), run, changed, ok)
    {
      var cancelled: bool, fails: bool, cancelledLater: bool := *, *, *;
      ghost var b, site := Now(), Place();
      var actual := backend.observer.Scan(run.mayFail && (cancelled || fails));
      if actual.None? {
        NothingEnsured(site, b, run);
        return [Action(ScanStage, false)], false, false;
      }
      if run.mayFail && cancelledLater {
        NothingEnsured(site, b, run);
        return [Action(ScanStage, true), Action(EnsureStage, false)], false, false;
      }
      changed, ok := EnsureScanned(run, actual.value);
      actions := [Action(ScanStage, true), Action(EnsureStage, ok)];
    }

    /** The verify and commit stages. */
    method VerifyAndCommit(run: Run) returns (actions: seq<Action>, ok: bool)
      requires Valid()
      modifies host`ownership
      ensures Two(actions, VerifyStage, CommitStage, ok)
      ensures actions[0].completed ==> Verifiable(Place(), old(Now()), run.found)
      ensures CommitStep(Place(), old(Now()), Now(), run, ok)
    {
      var cancelled: bool, cancelledLater: bool := *, *;
      ok := !(run.mayFail && cancelled);
      if ok {
        ok := backend.Verify(run.found, run.mayFail);
      }
      if !ok {
        return [Action(VerifyStage, false)], false;
      }
      ok := !(run.mayFail && cancelledLater);
      if ok {
        ok := backend.Commit(run.found, run.mayFail);
      }
      actions := [Action(VerifyStage, true), Action(CommitStage, ok)];
    }

    /** The publish stage. */
    method PublishLast(run: Run) returns (action: Action, ok: bool)
      requires Valid() && Recorded(Place(), Now(), run.found)
      modifies host`control, host`published
      ensures action == Action(PublishStage, ok)
      ensures PublishStep(Place(), old(Now()), Now(), run, ok)
    {
      var cancelled: bool := *;
      if run.mayFail && cancelled {
        return Action(PublishStage, false), false;
      }
      assert MapVerified(ScanOf(host.View(), backend.observer.links).maps, ControlMap);
      ok := backend.Publish(run.found, run.mayFail);
      action := Action(PublishStage, ok);
    }

    /** The last three stages. */
    method VerifyCommitPublish(run: Run) returns (actions: seq<Action>, ok: bool)
      requires Valid() && !Now().On()
      modifies host`control, host`published, host`ownership
      ensures if ok then actions == [Action(VerifyStage, true), Action(CommitStage, true), Action(PublishStage, true)]
              else Two(actions, VerifyStage, CommitStage, false)
                   || actions == [Action(VerifyStage, true), Action(CommitStage, true), Action(PublishStage, false)]
      ensures Action(VerifyStage, true) in actions ==> Verifiable(Place(), old(Now()), run.found)
      ensures Finished(Place(), old(Now()), Now(), run, ok)
    {
      ghost var c, site := Now(), Place();
      actions, ok := VerifyAndCommit(run);
      ghost var d := Now();
      if !ok {
        NotCommitted(site, c, d, run);
        return;
      }
      var last;
      last, ok := PublishLast(run);
      CommittedThenPublished(site, c, d, Now(), run, ok);
      actions := actions + [last];
    }

    /** The first four stages. */
    method DisableToEnsure(run: Run) returns (actions: seq<Action>, changed: bool, ok: bool)
      requires Valid()
      modifies host`maps, host`programs, host`filters, host`control, host`marker, host`log
      ensures ok ==> Laid(Place(), old(Now()), Now(), run, changed)
                     && actions == FIRST_FOUR_DONE && ScanWorks(Place(), old(Now()))
      ensures !ok ==> Reconciled(Place(), old(Now()), Now(), run, actions, changed, false)
    {
      ghost var a, site := Now(), Place();
      var first, more;
      first, ok := DisableAndDiscover(run);
      ghost var b := Now();
      changed := false;
      if !ok {
        EndsBeforeScan(site, a, b, run, first, changed);
        return first, changed, false;
      }
      more, changed, ok := ScanAndEnsure(run);
      actions := first + more;
      if ok {
        EnsuredIsLaid(site, a, b, Now(), run, changed);
      } else {
        EnsureFailed(site, a, b, Now(), run, first, more, changed);
      }
    }

    /** The stages in order. */
    method RunStages(run: Run) returns (actions: seq<Action>, changed: bool, ok: bool)
      requires Valid()
      modifies host
      ensures Reconciled(Place(), old(Now()), Now(), run, actions, changed, ok)
    {
      ghost var a, site := Now(), Place();
      actions, changed, ok := DisableToEnsure(run);
      if !ok {
        return;
      }
      ghost var c, first := Now(), actions;
      var more;
      more, ok := VerifyCommitPublish(run);
      actions := actions + more;
      PipelineEnds(first, more, ok);
      HonestTogether(site, a, c, Now(), run, first, more, ok);
      RunEnds(site, a, c, Now(), run, actions, changed, ok);
    }

    /** `FullReconcile`. `refused` says that the caller was cancelled before it entered the
        gate. */
    method FullReconcile(run: Run, refused: bool) returns (result: ReconcileResult, ok: bool)
      requires Valid()
      modifies this`state, host
      ensures refused ==> !ok && result == ReconcileResult(0, false, [], old(state))
      ensures refused ==> state == old(state) && Now() == old(Now())
      ensures !refused ==> Reconciled(Place(), old(Now()), Now(), run, result.actions, result.changed, ok)
      ensures !refused ==> result.state == state == if ok then AgentReady else AgentDisabled
      ensures ok ==> result.generation == run.found.generation
      ensures !ok ==> result.generation == 0 && !result.changed
    {
      result := ReconcileResult(0, false, [], state);
      if refused {
        return result, false;
      }
      state := AgentReconciling;
      var actions, changed;
      actions, changed, ok := RunStages(run);
      if !ok {
        state := AgentDisabled;
        return ReconcileResult(0, false, actions, AgentDisabled), false;
      }
      state := AgentReady;
      result := ReconcileResult(run.found.generation, changed, actions, AgentReady);
    }
  }
}
