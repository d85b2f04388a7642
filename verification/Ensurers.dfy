/** The passes that attach filters for the node and for one endpoint. */
module Ensurers {
  import opened Wrappers
  import opened Kernel
  import opened Tc
  import opened Observation
  import opened MapEnsure
  import opened PinManager

  // ---- What a pass may do to the filters it finds ----

  /** No filter of the list is under the wanted handle. */
  predicate HandleFree(list: seq<Filter>, want: Filter) {
    forall f :: f in list ==> !SameHandle(f, want)
  }

  /** A filter the agent added: one of ours, under a handle that was free. */
  predicate Added(a: seq<Filter>, x: Filter) {
    Ours(x) && HandleFree(a, x)
  }

  /** Every filter of `a` is still in `b`; the others are our own, under handles that were
      free; and handles stay unique at the fixed priority if they were. */
  ghost predicate Grown(a: seq<Filter>, b: seq<Filter>) {
    && multiset(a) <= multiset(b)
    && (forall x :: x in multiset(b) - multiset(a) ==> Added(a, x))
    && (UniqueHandles(a) ==> UniqueHandles(b))
  }

  ghost predicate GrownAt(before: FilterLists, after: FilterLists, key: LinkKey) {
    Grown(At(before, key), At(after, key))
  }

  ghost predicate FiltersGrown(before: FilterLists, after: FilterLists) {
    forall key :: GrownAt(before, after, key)
  }

  predicate Established(filters: FilterLists, spec: FilterSpec) {
    Decide(FiltersAt(filters, spec.link), spec.filter) == Reuse
  }

  ghost predicate KeepsEstablished(before: FilterLists, after: FilterLists) {
    forall spec :: Established(before, spec) ==> Established(after, spec)
  }

  /** New filters run a program that is pinned under its name and ID. */
  predicate Backed(programs: PinnedPrograms, before: seq<Filter>, after: seq<Filter>) {
    forall f :: f in after ==> f in before || Loadable(programs, f)
  }

  predicate BackedAt(programs: PinnedPrograms, before: FilterLists, after: FilterLists, key: LinkKey) {
    Backed(programs, At(before, key), At(after, key))
  }

  ghost predicate FiltersBacked(programs: PinnedPrograms, before: FilterLists, after: FilterLists) {
    forall key :: BackedAt(programs, before, after, key)
  }

  ghost predicate FiltersPreserved(programs: PinnedPrograms, before: FilterLists, after: FilterLists) {
    FiltersGrown(before, after) && KeepsEstablished(before, after) && FiltersBacked(programs, before, after)
  }

  lemma GrownTransitive(a: seq<Filter>, b: seq<Filter>, c: seq<Filter>)
    requires Grown(a, b) && Grown(b, c)
    ensures Grown(a, c)
  {
    forall y | y in a
      ensures y in b
    {
      assert y in multiset(a) && y in multiset(b);
    }
    forall x | x in multiset(c) - multiset(a)
      ensures Added(a, x)
    {
      if multiset(c)[x] > multiset(b)[x] {
        assert x in multiset(c) - multiset(b);
        assert Added(b, x);
      } else {
        assert x in multiset(b) - multiset(a);
      }
    }
  }

  lemma BackedTransitive(p: PinnedPrograms, q: PinnedPrograms, a: seq<Filter>, b: seq<Filter>, c: seq<Filter>)
    requires Backed(p, a, b) && Backed(q, b, c) && Kept(p, q)
    ensures Backed(q, a, c)
  {
  }

  /** Programs may be pinned in between. */
  lemma PreservedTransitive(p: PinnedPrograms, q: PinnedPrograms, a: FilterLists, b: FilterLists, c: FilterLists)
    requires FiltersPreserved(p, a, b) && FiltersPreserved(q, b, c) && Kept(p, q)
    ensures FiltersPreserved(q, a, c)
  {
    forall key
      ensures GrownAt(a, c, key) && BackedAt(q, a, c, key)
    {
      assert GrownAt(a, b, key) && GrownAt(b, c, key) && BackedAt(p, a, b, key) && BackedAt(q, b, c, key);
      GrownTransitive(At(a, key), At(b, key), At(c, key));
      BackedTransitive(p, q, At(a, key), At(b, key), At(c, key));
    }
  }

  lemma GrownByAttach(list: seq<Filter>, want: Filter, k: nat)
    requires Ours(want) && k <= |list| && Decide(list, want) == Attach
    ensures Grown(list, InsertAt(list, k, want))
  {
    var longer := InsertAt(list, k, want);
    assert multiset(longer) - multiset(list) == multiset{want};
    DecideMeans(list, want);
    assert Added(list, want);
    if UniqueHandles(list) {
      UniquenessKept(list, want, k);
    }
  }

  lemma GrownReflexive(list: seq<Filter>)
    ensures Grown(list, list)
  {
  }

  lemma GrownOnOneLink(filters: FilterLists, link: Link, longer: seq<Filter>)
    requires Grown(FiltersAt(filters, link), longer)
    ensures FiltersGrown(filters, filters[Key(link) := longer])
  {
    var after := filters[Key(link) := longer];
    forall key
      ensures GrownAt(filters, after, key)
    {
      GrownReflexive(At(filters, key));
    }
  }

  lemma BackedOnOneLink(programs: PinnedPrograms, filters: FilterLists, link: Link, filter: Filter, k: nat)
    requires Loadable(programs, filter) && k <= |FiltersAt(filters, link)|
    ensures FiltersBacked(programs, filters, filters[Key(link) := InsertAt(FiltersAt(filters, link), k, filter)])
  {
    var longer := InsertAt(FiltersAt(filters, link), k, filter);
    assert forall f :: f in longer ==> f in multiset(longer);
    assert forall f :: f in longer ==> f in FiltersAt(filters, link) || f == filter;
    var after := filters[Key(link) := longer];
    forall key
      ensures BackedAt(programs, filters, after, key)
    {
    }
  }

  lemma EstablishedOnOneLink(filters: FilterLists, link: Link, longer: seq<Filter>)
    requires forall w :: Decide(FiltersAt(filters, link), w) == Reuse ==> Decide(longer, w) == Reuse
    ensures KeepsEstablished(filters, filters[Key(link) := longer])
  {
  }

  lemma EstablishedByAttach(list: seq<Filter>, want: Filter, k: nat)
    requires Ours(want) && k <= |list| && Decide(list, want) == Attach
    ensures forall w :: Decide(list, w) == Reuse ==> Decide(InsertAt(list, k, want), w) == Reuse
  {
    forall w | Decide(list, w) == Reuse
      ensures Decide(InsertAt(list, k, want), w) == Reuse
    {
      ReuseExcludesAttach(list, w, want);
      OthersDoNotMatter(list, w, want, k);
    }
  }

  /** Attaching one fixed filter, wherever the kernel puts it, preserves all others. */
  lemma AttachPreserves(programs: PinnedPrograms, filters: FilterLists, spec: FilterSpec, k: nat)
    requires Loadable(programs, spec.filter)
    requires Ours(spec.filter) && k <= |FiltersAt(filters, spec.link)|
    requires Decide(FiltersAt(filters, spec.link), spec.filter) == Attach
    ensures var after := filters[Key(spec.link) := InsertAt(FiltersAt(filters, spec.link), k, spec.filter)];
            FiltersPreserved(programs, filters, after) && Established(after, spec)
  {
    var list := FiltersAt(filters, spec.link);
    GrownByAttach(list, spec.filter, k);
    GrownOnOneLink(filters, spec.link, InsertAt(list, k, spec.filter));
    BackedOnOneLink(programs, filters, spec.link, spec.filter, k);
    EstablishedByAttach(list, spec.filter, k);
    EstablishedOnOneLink(filters, spec.link, InsertAt(list, k, spec.filter));
    AttachedIsReused(list, spec.filter, k);
  }

  // ---- What a pass may still attach ----

  /** No filter of the link stands in the way of the wanted one. */
  predicate Placeable(filters: FilterLists, spec: FilterSpec) {
    Decide(FiltersAt(filters, spec.link), spec.filter) != Conflict
  }

  /** Attaching one cannot be in the other's way. */
  predicate Compatible(a: Filter, b: Filter) {
    SameHandle(a, b) ==> a == b
  }

  ghost predicate KeepsPlaceable(added: Filter, before: FilterLists, after: FilterLists) {
    forall w: FilterSpec :: Compatible(added, w.filter) ==> (Placeable(before, w) <==> Placeable(after, w))
  }

  lemma AttachKeepsPlaceable(filters: FilterLists, spec: FilterSpec, k: nat)
    requires Ours(spec.filter) && k <= |FiltersAt(filters, spec.link)|
    requires Decide(FiltersAt(filters, spec.link), spec.filter) == Attach
    ensures var list := InsertAt(FiltersAt(filters, spec.link), k, spec.filter);
            KeepsPlaceable(spec.filter, filters, filters[Key(spec.link) := list])
  {
    var list := FiltersAt(filters, spec.link);
    forall w: FilterSpec | Key(w.link) == Key(spec.link) && Compatible(spec.filter, w.filter)
      ensures Decide(InsertAt(list, k, spec.filter), w.filter) != Conflict <==> Decide(list, w.filter) != Conflict
    {
      if SameHandle(spec.filter, w.filter) {
        AttachedIsReused(list, spec.filter, k);
      } else {
        OthersDoNotMatter(list, w.filter, spec.filter, k);
      }
    }
  }

  lemma PreservedReflexive(programs: PinnedPrograms, filters: FilterLists)
    ensures FiltersPreserved(programs, filters, filters)
  {
    forall key
      ensures GrownAt(filters, filters, key) && BackedAt(programs, filters, filters, key)
    {
      GrownReflexive(At(filters, key));
    }
  }

  // ---- One wanted filter ----

  /** The filter of a program on a link, by the program ID in force. */
  function Wanted(programs: PinnedPrograms, link: Link, program: ProgramName): Option<FilterSpec> {
    if program in programs then NewFixedFilter(link, program, programs[program].id) else None
  }

  predicate FilterSettled(filters: FilterLists, programs: PinnedPrograms,
                          link: Link, program: ProgramName)
  {
    && LinkUsable(link) && Wanted(programs, link, program).Some?
    && Established(filters, Wanted(programs, link, program).value)
  }

  /** The pass can get the filter of a program onto a link. */
  predicate Attachable(filters: FilterLists, programs: PinnedPrograms,
                       link: Link, program: ProgramName)
  {
    && LinkUsable(link) && Wanted(programs, link, program).Some?
    && Placeable(filters, Wanted(programs, link, program).value)
  }

  ghost predicate KeepsAttachable(programs: PinnedPrograms,
                                  before: FilterLists, after: FilterLists)
  {
    forall link, program :: Attachable(before, programs, link, program) <==> Attachable(after, programs, link, program)
  }

  /** The filters wanted for one set of pinned programs are not in each other's way. */
  lemma WantedAreCompatible(programs: PinnedPrograms, a: Link, p: ProgramName, b: Link, q: ProgramName)
    requires Wanted(programs, a, p).Some? && Wanted(programs, b, q).Some?
    ensures Compatible(Wanted(programs, a, p).value.filter, Wanted(programs, b, q).value.filter)
  {
  }

  lemma WantedKeepsAttachable(programs: PinnedPrograms, link: Link, program: ProgramName,
                              before: FilterLists, after: FilterLists)
    requires Wanted(programs, link, program).Some?
    requires KeepsPlaceable(Wanted(programs, link, program).value.filter, before, after)
    ensures KeepsAttachable(programs, before, after)
  {
    forall l, p | Wanted(programs, l, p).Some?
      ensures Attachable(before, programs, l, p) <==> Attachable(after, programs, l, p)
    {
      WantedAreCompatible(programs, link, program, l, p);
    }
  }

  /** A pinned program can be loaded under the ID the scan reported. */
  predicate PinnedAs(pinned: PinnedPrograms, seen: PinnedPrograms, program: ProgramName) {
    program in seen && program in pinned && pinned[program].id == seen[program].id
  }

  lemma SettledKept(before: FilterLists, after: FilterLists,
                    programs: PinnedPrograms, link: Link, program: ProgramName)
    requires KeepsEstablished(before, after) && FilterSettled(before, programs, link, program)
    ensures FilterSettled(after, programs, link, program)
  {
  }

  /** What a filter pass does at most, with the programs it saw and those that are pinned. */
  ghost predicate Tended(pinned: PinnedPrograms, seen: PinnedPrograms, before: FilterLists, after: FilterLists) {
    FiltersPreserved(pinned, before, after) && KeepsAttachable(seen, before, after)
  }

  lemma TendedTransitive(pinned: PinnedPrograms, seen: PinnedPrograms, a: FilterLists, b: FilterLists, c: FilterLists)
    requires Tended(pinned, seen, a, b) && Tended(pinned, seen, b, c)
    ensures Tended(pinned, seen, a, c)
  {
    PreservedTransitive(pinned, pinned, a, b, c);
  }

  lemma TendedKeeps(pinned: PinnedPrograms, seen: PinnedPrograms, a: FilterLists, b: FilterLists, link: Link,
                    program: ProgramName)
    requires Tended(pinned, seen, a, b)
    ensures FilterSettled(a, seen, link, program) ==> FilterSettled(b, seen, link, program)
    ensures Attachable(a, seen, link, program) <==> Attachable(b, seen, link, program)
  {
    if FilterSettled(a, seen, link, program) {
      SettledKept(a, b, seen, link, program);
    }
  }

  /** The handle of a program's wanted filter is free on a link. */
  predicate Vacant(filters: FilterLists, programs: PinnedPrograms, link: Link, program: ProgramName) {
    && Wanted(programs, link, program).Some?
    && HandleFree(FiltersAt(filters, link), Wanted(programs, link, program).value.filter)
  }

  /** Filters are only added, so a handle that is free was free before. */
  lemma VacantBefore(before: FilterLists, after: FilterLists, programs: PinnedPrograms, link: Link,
                     program: ProgramName)
    requires FiltersGrown(before, after) && Vacant(after, programs, link, program)
    ensures Vacant(before, programs, link, program)
  {
    assert GrownAt(before, after, Key(link));
    forall y | y in FiltersAt(before, link)
      ensures y in FiltersAt(after, link)
    {
      assert y in multiset(FiltersAt(before, link)) && y in multiset(FiltersAt(after, link));
    }
  }

  /** One call of `EnsureFilter`; `calm` says that nothing failed. */
  ghost predicate EstablishStep(spec: FilterSpec, a: HostState, b: HostState, calm: bool, ok: bool) {
    && b == a.(pins := a.pins.(filters := b.pins.filters), log := b.log)
    && FiltersPreserved(a.pins.programs, a.pins.filters, b.pins.filters)
    && KeepsPlaceable(spec.filter, a.pins.filters, b.pins.filters)
    && (!a.On() ==> MadeWhileOff(a.log, b.log))
    && (ok ==> LinkUsable(spec.link) && Established(b.pins.filters, spec))
    && (Established(a.pins.filters, spec) ==> b == a)
    && (b != a ==> HandleFree(FiltersAt(a.pins.filters, spec.link), spec.filter))
    && (calm && LinkUsable(spec.link) && Loadable(a.pins.programs, spec.filter) ==>
          (ok <==> Placeable(a.pins.filters, spec)))
  }

  lemma AttachIsAStep(spec: FilterSpec, f: TcFaults, a: HostState, b: HostState, ok: bool)
    requires ValidSpec(spec) && Attaches(a.pins, spec, f) && (ok <==> Ensures(a.pins, spec, f))
    requires var list := FiltersAt(a.pins.filters, spec.link);
             && b.pins == a.pins.(filters :=
                    a.pins.filters[Key(spec.link) := InsertAt(list, f.position % (|list| + 1), spec.filter)])
             && b == a.(pins := b.pins, log := a.log + [Change(FilterChanged, a.On())])
    ensures EstablishStep(spec, a, b, NothingFails(f), ok)
  {
    var list := FiltersAt(a.pins.filters, spec.link);
    DecideMeans(list, spec.filter);
    AttachPreserves(a.pins.programs, a.pins.filters, spec, f.position % (|list| + 1));
    AttachKeepsPlaceable(a.pins.filters, spec, f.position % (|list| + 1));
  }

  lemma ReuseIsAStep(spec: FilterSpec, f: TcFaults, a: HostState, b: HostState, ok: bool)
    requires ValidSpec(spec) && !Attaches(a.pins, spec, f) && b == a && (ok <==> Ensures(a.pins, spec, f))
    ensures EstablishStep(spec, a, b, NothingFails(f), ok)
  {
    PreservedReflexive(a.pins.programs, a.pins.filters);
  }

  lemma StepTaken(spec: FilterSpec, f: TcFaults, a: HostState, b: HostState, ok: bool)
    requires ValidSpec(spec) && (ok <==> Ensures(a.pins, spec, f))
    requires b == a.(pins := a.pins.(filters := b.pins.filters), log := b.log)
    requires b.log == a.log + if Attaches(a.pins, spec, f) then [Change(FilterChanged, a.On())] else []
    requires var list := FiltersAt(a.pins.filters, spec.link);
             b.pins.filters == if Attaches(a.pins, spec, f)
                               then a.pins.filters[Key(spec.link) :=
                                      InsertAt(list, f.position % (|list| + 1), spec.filter)]
                               else a.pins.filters
    ensures EstablishStep(spec, a, b, NothingFails(f), ok)
  {
    if Attaches(a.pins, spec, f) {
      AttachIsAStep(spec, f, a, b, ok);
    } else {
      assert b == a;
      ReuseIsAStep(spec, f, a, b, ok);
    }
  }

  /** A filter pass that saw `seen` touches filters only, and if the fast path is off, with it off. */
  ghost predicate FilterWork(seen: ActualState, a: HostState, b: HostState) {
    && b == a.(pins := a.pins.(filters := b.pins.filters), log := b.log)
    && Tended(a.pins.programs, seen.programs, a.pins.filters, b.pins.filters)
    && (!a.On() ==> MadeWhileOff(a.log, b.log))
  }

  lemma NoFilterWork(seen: ActualState, a: HostState)
    ensures FilterWork(seen, a, a)
  {
    PreservedReflexive(a.pins.programs, a.pins.filters);
  }

  lemma FilterWorkTransitive(seen: ActualState, a: HostState, b: HostState, c: HostState)
    requires FilterWork(seen, a, b) && FilterWork(seen, b, c)
    ensures FilterWork(seen, a, c)
  {
    TendedTransitive(a.pins.programs, seen.programs, a.pins.filters, b.pins.filters, c.pins.filters);
  }

  predicate SettledAt(h: HostState, seen: ActualState, link: Link, program: ProgramName) {
    FilterSettled(h.pins.filters, seen.programs, link, program)
  }

  predicate AttachableAt(h: HostState, seen: ActualState, link: Link, program: ProgramName) {
    Attachable(h.pins.filters, seen.programs, link, program)
  }

  /** The scan does not show the filter of a program on a link. */
  predicate Lacks(seen: ActualState, link: Link, program: ProgramName) {
    Wanted(seen.programs, link, program).Some? && !AttachmentVerified(seen, link, program)
  }

  predicate VacantAt(h: HostState, seen: ActualState, link: Link, program: ProgramName) {
    Vacant(h.pins.filters, seen.programs, link, program)
  }

  /** One program of a pass; `calm` says that nothing failed. */
  ghost predicate OneEnsured(seen: ActualState, a: HostState, b: HostState, link: Link, program: ProgramName,
                             calm: bool, missing: bool, ok: bool)
  {
    && FilterWork(seen, a, b)
    && (ok ==> SettledAt(b, seen, link, program))
    && (SettledAt(a, seen, link, program) ==> b == a)
    && (b != a ==> VacantAt(a, seen, link, program))
    && (calm && PinnedAs(a.pins.programs, seen.programs, program) ==> (ok <==> AttachableAt(a, seen, link, program)))
    && (missing <==> Lacks(seen, link, program))
  }

  lemma StepEnsuresOne(seen: ActualState, a: HostState, b: HostState, link: Link, program: ProgramName, calm: bool,
                       missing: bool, ok: bool)
    requires Wanted(seen.programs, link, program).Some?
    requires EstablishStep(Wanted(seen.programs, link, program).value, a, b, calm, ok)
    requires missing <==> Lacks(seen, link, program)
    ensures OneEnsured(seen, a, b, link, program, calm, missing, ok)
  {
    WantedKeepsAttachable(seen.programs, link, program, a.pins.filters, b.pins.filters);
  }

  /** Two programs of a pass in turn. A filter is added only under a handle that was free, and
      a change is reported for what the scan did not show, as far as the pass gets. */
  ghost predicate TwoEnsured(seen: ActualState, a: HostState, b: HostState, one: Link, p: ProgramName,
                             two: Link, q: ProgramName, calm: bool, changed: bool, ok: bool)
  {
    && FilterWork(seen, a, b)
    && (ok ==> SettledAt(b, seen, one, p) && SettledAt(b, seen, two, q))
    && (SettledAt(a, seen, one, p) && SettledAt(a, seen, two, q) ==> b == a)
    && (calm && PinnedAs(a.pins.programs, seen.programs, p) && PinnedAs(a.pins.programs, seen.programs, q) ==>
          (ok <==> AttachableAt(a, seen, one, p) && AttachableAt(a, seen, two, q)))
    && (b != a ==> VacantAt(a, seen, one, p) || VacantAt(a, seen, two, q))
    && (Lacks(seen, one, p) || (ok && Lacks(seen, two, q)) ==> changed)
    && (changed ==> Lacks(seen, one, p) || Lacks(seen, two, q))
  }

  lemma FirstFailed(seen: ActualState, a: HostState, b: HostState, one: Link, p: ProgramName,
                    two: Link, q: ProgramName, calm: bool, calmToo: bool, missing: bool)
    requires OneEnsured(seen, a, b, one, p, calm, missing, false)
    ensures TwoEnsured(seen, a, b, one, p, two, q, calm && calmToo, missing, false)
  {
  }

  lemma BothEnsured(seen: ActualState, a: HostState, b: HostState, c: HostState, one: Link, p: ProgramName,
                    two: Link, q: ProgramName, calm: bool, calmToo: bool, missing: bool, missingToo: bool, ok: bool)
    requires OneEnsured(seen, a, b, one, p, calm, missing, true)
    requires OneEnsured(seen, b, c, two, q, calmToo, missingToo, ok)
    ensures TwoEnsured(seen, a, c, one, p, two, q, calm && calmToo, missing || missingToo, ok)
  {
    FilterWorkTransitive(seen, a, b, c);
    TendedKeeps(a.pins.programs, seen.programs, a.pins.filters, b.pins.filters, two, q);
    TendedKeeps(a.pins.programs, seen.programs, b.pins.filters, c.pins.filters, one, p);
    if VacantAt(b, seen, two, q) {
      VacantBefore(a.pins.filters, b.pins.filters, seen.programs, two, q);
    }
  }

  class FilterEnsurer {
    const host: Host
    const tc: TCManager

    constructor (host: Host)
      ensures this.host == host && tc.host == host
    {
      this.host := host;
      tc := new TCManager(host);
    }

    predicate Valid() {
      tc.host == host
    }

    /** `EnsureFilter`, seen as a step of a pass. */
    method Establish(spec: FilterSpec, f: TcFaults) returns (ok: bool)
      requires Valid() && ValidSpec(spec)
      modifies host`filters, host`log
      ensures EstablishStep(spec, old(host.Now()), host.Now(), NothingFails(f), ok)
    {
      ghost var a := host.Now();
      var r := tc.EnsureFilter(spec, f);
      ok := r.Success?;
      StepTaken(spec, f, a, host.Now(), ok);
    }

    /** The loop body of `EnsureBase` and `EnsureEndpoint`: `missing` says that the scan
        did not show the filter. */
    method EnsureProgram(actual: ActualState, link: Link, program: ProgramName, f: TcFaults)
      returns (missing: bool, ok: bool)
      requires Valid() && program in actual.programs
      modifies host`filters, host`log
      ensures OneEnsured(actual, old(host.Now()), host.Now(), link, program, NothingFails(f), missing, ok)
    {
      var spec := NewFixedFilter(link, program, actual.programs[program].id);
      if spec.None? {
        NoFilterWork(actual, host.Now());
        return false, false;
      }
      var found := HasAttachment(actual.attachments, spec.value);
      missing := !found;
      ok := Establish(spec.value, f);
      StepEnsuresOne(actual, old(host.Now()), host.Now(), link, program, NothingFails(f), missing, ok);
    }

    /** Two programs in turn, as the loops of `EnsureBase` and `EnsureEndpoint` do. */
    method EnsurePair(actual: ActualState, one: Link, p: ProgramName, two: Link, q: ProgramName,
                      f: TcFaults, g: TcFaults)
      returns (changed: bool, ok: bool)
      requires Valid() && p in actual.programs && q in actual.programs
      modifies host`filters, host`log
      ensures var calm := NothingFails(f) && NothingFails(g);
              TwoEnsured(actual, old(host.Now()), host.Now(), one, p, two, q, calm, changed, ok)
    {
      ghost var a, calm, calmToo := host.Now(), NothingFails(f), NothingFails(g);
      var missing;
      missing, ok := EnsureProgram(actual, one, p, f);
      ghost var b := host.Now();
      if !ok {
        FirstFailed(actual, a, b, one, p, two, q, calm, calmToo, missing);
        return missing, false;
      }
      var missingToo;
      missingToo, ok := EnsureProgram(actual, two, q, g);
      BothEnsured(actual, a, b, host.Now(), one, p, two, q, calm, calmToo, missing, missingToo, ok);
      changed := missing || missingToo;
    }
  }

  /** The scan shows both filters of the node. */
  predicate NodeVerified(actual: ActualState, desired: DesiredState) {
    && AttachmentVerified(actual, desired.underlay, TcInitE)
    && AttachmentVerified(actual, desired.underlay, TcRestore)
  }

  predicate BaseAvailable(actual: ActualState) {
    ProgramAvailable(actual.programs, TcInitE) && ProgramAvailable(actual.programs, TcRestore)
  }

  predicate EndpointAvailable(actual: ActualState) {
    ProgramAvailable(actual.programs, TcInitIn) && ProgramAvailable(actual.programs, TcMasq)
  }

  class BaseEnsurer {
    const filters: FilterEnsurer

    constructor (host: Host)
      ensures filters.host == host && filters.Valid() && fresh(filters)
    {
      filters := new FilterEnsurer(host);
    }

    /** `EnsureBase`: `tc_init_e` and `tc_restore` on the underlay. */
    method EnsureBase(desired: DesiredState, actual: ActualState, cancelled: bool, f: TcFaults, g: TcFaults)
      returns (changed: bool, ok: bool)
      requires filters.Valid()
      modifies filters.host`filters, filters.host`log
      ensures FilterWork(actual, old(filters.host.Now()), filters.host.Now())
      ensures !desired.enabled ==>
                !changed && filters.host.Now() == old(filters.host.Now()) && (ok <==> !cancelled)
      ensures ok && desired.enabled ==>
                BaseAvailable(actual) && BaseSettled(filters.host.filters, actual.programs, desired)
      ensures ok && desired.enabled ==> Loads(actual, TcInitE) && Loads(actual, TcRestore)
      ensures BaseSettled(old(filters.host.filters), actual.programs, desired) ==>
                filters.host.Now() == old(filters.host.Now())
      ensures (desired.enabled && !cancelled && NothingFails(f) && NothingFails(g)
               && PinnedAs(filters.host.programs, actual.programs, TcInitE)
               && PinnedAs(filters.host.programs, actual.programs, TcRestore)) ==>
                (ok <==> BaseAvailable(actual) && BaseAttachable(old(filters.host.filters), actual.programs, desired))
      ensures ok && desired.enabled ==> (changed <==> !NodeVerified(actual, desired))
      ensures changed ==> !NodeVerified(actual, desired)
      ensures filters.host.Now() != old(filters.host.Now()) ==>
                BaseVacant(old(filters.host.filters), actual.programs, desired)
    {
      NoFilterWork(actual, filters.host.Now());
      if cancelled {
        return false, false;
      }
      if !desired.enabled {
        return false, true;
      }
      if !BaseAvailable(actual) {
        return false, false;
      }
      changed, ok := filters.EnsurePair(actual, desired.underlay, TcInitE, desired.underlay, TcRestore, f, g);
    }
  }

  predicate BaseSettled(filters: FilterLists, programs: PinnedPrograms, desired: DesiredState) {
    && FilterSettled(filters, programs, desired.underlay, TcInitE)
    && FilterSettled(filters, programs, desired.underlay, TcRestore)
  }

  predicate EndpointSettled(filters: FilterLists, programs: PinnedPrograms, e: Endpoint) {
    FilterSettled(filters, programs, e.peer, TcInitIn) && FilterSettled(filters, programs, e.host, TcMasq)
  }

  predicate BaseAttachable(filters: FilterLists, programs: PinnedPrograms, desired: DesiredState) {
    && Attachable(filters, programs, desired.underlay, TcInitE)
    && Attachable(filters, programs, desired.underlay, TcRestore)
  }

  /** One of the two handles at least is free. */
  predicate BaseVacant(filters: FilterLists, programs: PinnedPrograms, desired: DesiredState) {
    || Vacant(filters, programs, desired.underlay, TcInitE)
    || Vacant(filters, programs, desired.underlay, TcRestore)
  }

  predicate EndpointVacant(filters: FilterLists, programs: PinnedPrograms, e: Endpoint) {
    Vacant(filters, programs, e.peer, TcInitIn) || Vacant(filters, programs, e.host, TcMasq)
  }

  predicate EndpointAttachable(filters: FilterLists, programs: PinnedPrograms, e: Endpoint) {
    Attachable(filters, programs, e.peer, TcInitIn) && Attachable(filters, programs, e.host, TcMasq)
  }

  class EndpointEnsurer {
    const filters: FilterEnsurer

    constructor (host: Host)
      ensures filters.host == host && filters.Valid() && fresh(filters)
    {
      filters := new FilterEnsurer(host);
    }

    /** `EnsureEndpoint`: `tc_init_in` on the pod's peer link, `tc_masq` on its host link. */
    method EnsureEndpoint(desired: DesiredState, actual: ActualState, e: Endpoint, cancelled: bool, f: TcFaults,
                          g: TcFaults)
      returns (changed: bool, ok: bool)
      requires filters.Valid()
      modifies filters.host`filters, filters.host`log
      ensures FilterWork(actual, old(filters.host.Now()), filters.host.Now())
      ensures !desired.enabled ==>
                !changed && filters.host.Now() == old(filters.host.Now()) && (ok <==> !cancelled)
      ensures ok && desired.enabled ==>
                && EndpointAvailable(actual) && EndpointSettled(filters.host.filters, actual.programs, e)
                && CurrentEndpoint(desired, e) && ValidEndpoint(e)
      ensures ok && desired.enabled ==> Loads(actual, TcInitIn) && Loads(actual, TcMasq)
      ensures EndpointSettled(old(filters.host.filters), actual.programs, e) ==>
                filters.host.Now() == old(filters.host.Now())
      ensures (desired.enabled && !cancelled && NothingFails(f) && NothingFails(g)
               && PinnedAs(filters.host.programs, actual.programs, TcInitIn)
               && PinnedAs(filters.host.programs, actual.programs, TcMasq)) ==>
                (ok <==> CurrentEndpoint(desired, e) && ValidEndpoint(e) && EndpointAvailable(actual)
                         && EndpointAttachable(old(filters.host.filters), actual.programs, e))
      ensures ok && desired.enabled ==> (changed <==> !EndpointVerified(actual, e))
      ensures changed ==> !EndpointVerified(actual, e)
      ensures filters.host.Now() != old(filters.host.Now()) ==>
                EndpointVacant(old(filters.host.filters), actual.programs, e)
    {
      NoFilterWork(actual, filters.host.Now());
      if cancelled {
        return false, false;
      }
      if !desired.enabled {
        return false, true;
      }
      if !CurrentEndpoint(desired, e) || !ValidEndpoint(e) {
        return false, false;
      }
      if !EndpointAvailable(actual) {
        return false, false;
      }
      changed, ok := filters.EnsurePair(actual, e.peer, TcInitIn, e.host, TcMasq, f, g);
    }
  }
}
