/** Ownership of TC filters by fixed identity. */
module Tc {
  import opened Wrappers
  import opened Kernel

  const FIXED_PRIORITY := 1000

  datatype Slot = Slot(hook: Hook, handle: nat)

  function FixedSlot(program: ProgramName): Option<Slot> {
    match program
    case TcInitE => Some(Slot(HookEgress, 0x100))
    case TcRestore => Some(Slot(HookIngress, 0x101))
    case TcMasq => Some(Slot(HookIngress, 0x200))
    case TcInitIn => Some(Slot(HookIngress, 0x201))
    case OtherProgram(_) => None
  }

  /** The filter of one of the four programs; direct action is always on. */
  predicate Fixed(f: Filter) {
    && FixedSlot(f.program) == Some(Slot(f.hook, f.handle))
    && f.priority == FIXED_PRIORITY
  }

  /** A filter the agent may add: a fixed one with a program ID. */
  predicate Ours(f: Filter) {
    Fixed(f) && f.programId != 0
  }

  /** `validateFilterSpec`. */
  predicate ValidSpec(spec: FilterSpec) {
    spec.link.ifindex > 0 && Ours(spec.filter)
  }

  /** `NewFixedFilter`. */
  function NewFixedFilter(link: Link, program: ProgramName, programId: nat): (r: Option<FilterSpec>)
    ensures r.Some? <==> link.ifindex > 0 && programId != 0 && !program.OtherProgram?
    ensures r.Some? ==> ValidSpec(r.value) && r.value.link == link && r.value.filter.program == program
                        && r.value.filter.programId == programId && r.value.filter.directAction
                        && OneOfTheFour(r.value.filter) && r.value.filter.priority == 1000
  {
    match FixedSlot(program)
    case None => None
    case Some(slot) =>
      var spec := FilterSpec(link, Filter(slot.hook, program, programId, FIXED_PRIORITY, slot.handle, true));
      if ValidSpec(spec) then Some(spec) else None
  }

  /** `sameFilter`: the program name is not compared, its kernel ID is. */
  predicate SameFilter(current: Filter, want: Filter) {
    current.hook == want.hook && current.programId == want.programId && current.priority == want.priority
    && current.handle == want.handle && current.directAction == want.directAction
  }

  /** `isFixedAttachment`. */
  predicate FixedAttachment(f: Filter) {
    FixedSlot(f.program) == Some(Slot(f.hook, f.handle))
  }

  predicate SamePlace(current: Filter, want: Filter) {
    current.hook == want.hook && current.priority == want.priority
  }

  predicate SameHandle(current: Filter, want: Filter) {
    SamePlace(current, want) && current.handle == want.handle
  }

  /** A filter at the same place that is neither the wanted one nor another fixed one. */
  predicate Foreign(current: Filter, want: Filter) {
    SamePlace(current, want) &&
    if current.handle == want.handle then !SameFilter(current, want) else !FixedAttachment(current)
  }

  datatype Plan = Reuse | Conflict | Attach

  /** What `EnsureFilter` decides, walking the list once. */
  function Decide(list: seq<Filter>, want: Filter): Plan {
    if list == [] then Attach
    else if Foreign(list[0], want) then Conflict
    else if SameHandle(list[0], want) then Reuse
    else Decide(list[1..], want)
  }

  // ---- The same in terms of the four identities ----

  /** The program, hook and handle are those of one of the agent's four filters. */
  predicate OneOfTheFour(f: Filter) {
    || (f.program == TcInitE && f.hook == HookEgress && f.handle == 0x100)
    || (f.program == TcRestore && f.hook == HookIngress && f.handle == 0x101)
    || (f.program == TcMasq && f.hook == HookIngress && f.handle == 0x200)
    || (f.program == TcInitIn && f.hook == HookIngress && f.handle == 0x201)
  }

  /** A request the manager accepts. */
  predicate InOrder(spec: FilterSpec) {
    && spec.link.ifindex > 0
    && OneOfTheFour(spec.filter) && spec.filter.priority == 1000 && spec.filter.programId != 0
  }

  lemma InOrderIsValid(spec: FilterSpec)
    ensures ValidSpec(spec) <==> InOrder(spec)
  {
  }

  /** A filter at the wanted hook and priority 1000 that is another program's under the
      wanted handle, or under another handle none of the four. */
  predicate Obstructs(current: Filter, want: Filter) {
    && current.hook == want.hook && current.priority == 1000
    && if current.handle == want.handle
       then current.programId != want.programId || current.directAction != want.directAction
       else !OneOfTheFour(current)
  }

  /** The wanted filter, whatever its name. */
  predicate IsWanted(current: Filter, want: Filter) {
    && current.hook == want.hook && current.priority == 1000 && current.handle == want.handle
    && current.programId == want.programId && current.directAction == want.directAction
  }

  ghost predicate Obstructed(list: seq<Filter>, want: Filter) {
    exists i :: 0 <= i < |list| && Obstructs(list[i], want) && forall j :: 0 <= j < i ==> !IsWanted(list[j], want)
  }

  ghost predicate Present(list: seq<Filter>, want: Filter) {
    exists i :: 0 <= i < |list| && IsWanted(list[i], want) && forall j :: 0 <= j < i ==> !Obstructs(list[j], want)
  }

  /** The walk over one more filter. */
  lemma ObstructedStep(list: seq<Filter>, want: Filter)
    requires list != []
    ensures Obstructed(list, want) <==>
            Obstructs(list[0], want) || (!IsWanted(list[0], want) && Obstructed(list[1..], want))
  {
    var rest := list[1..];
    assert forall i :: 0 < i < |list| ==> list[i] == rest[i - 1];
    if Obstructed(rest, want) && !IsWanted(list[0], want) {
      var i :| 0 <= i < |rest| && Obstructs(rest[i], want) && forall j :: 0 <= j < i ==> !IsWanted(rest[j], want);
      assert Obstructs(list[i + 1], want);
    }
    if i :| 0 < i < |list| && Obstructs(list[i], want) && forall j :: 0 <= j < i ==> !IsWanted(list[j], want) {
      assert Obstructs(rest[i - 1], want) && forall j :: 0 <= j < i - 1 ==> rest[j] == list[j + 1];
    }
  }

  lemma PresentStep(list: seq<Filter>, want: Filter)
    requires list != []
    ensures Present(list, want) <==>
            IsWanted(list[0], want) || (!Obstructs(list[0], want) && Present(list[1..], want))
  {
    var rest := list[1..];
    assert forall i :: 0 < i < |list| ==> list[i] == rest[i - 1];
    if Present(rest, want) && !Obstructs(list[0], want) {
      var i :| 0 <= i < |rest| && IsWanted(rest[i], want) && forall j :: 0 <= j < i ==> !Obstructs(rest[j], want);
      assert IsWanted(list[i + 1], want);
    }
    if i :| 0 < i < |list| && IsWanted(list[i], want) && forall j :: 0 <= j < i ==> !Obstructs(list[j], want) {
      assert IsWanted(rest[i - 1], want) && forall j :: 0 <= j < i - 1 ==> rest[j] == list[j + 1];
    }
  }

  /** The walk finds a conflict if and only if a filter in the way comes before the wanted
      one, and reuses the wanted one if and only if it comes first. */
  lemma {:induction false} DecisionOnIdentities(list: seq<Filter>, want: Filter)
    requires want.priority == 1000
    ensures Decide(list, want) == Conflict <==> Obstructed(list, want)
    ensures Decide(list, want) == Reuse <==> Present(list, want)
  {
    if list == [] {
    } else {
      DecisionOnIdentities(list[1..], want);
      ObstructedStep(list, want);
      PresentStep(list, want);
    }
  }

  /** The decision, read off the whole list. */
  lemma {:induction false} DecideMeans(list: seq<Filter>, want: Filter)
    ensures Decide(list, want) == Attach <==>
            forall i :: 0 <= i < |list| ==> !Foreign(list[i], want) && !SameHandle(list[i], want)
    ensures Decide(list, want) == Reuse <==>
            exists i :: 0 <= i < |list| && SameHandle(list[i], want) && !Foreign(list[i], want)
                        && forall j :: 0 <= j < i ==> !Foreign(list[j], want) && !SameHandle(list[j], want)
  {
    if list == [] {
    } else {
      var rest := list[1..];
      DecideMeans(rest, want);
      if Decide(list, want) == Reuse && !SameHandle(list[0], want) {
        var i :| 0 <= i < |rest| && SameHandle(rest[i], want) && !Foreign(rest[i], want)
                 && forall j :: 0 <= j < i ==> !Foreign(rest[j], want) && !SameHandle(rest[j], want);
        assert list[i + 1] == rest[i];
        assert forall j :: 0 < j < i + 1 ==> list[j] == rest[j - 1];
      }
      if i :| 0 <= i < |list| && SameHandle(list[i], want) && !Foreign(list[i], want)
              && forall j :: 0 <= j < i ==> !Foreign(list[j], want) && !SameHandle(list[j], want) {
        if i > 0 {
          assert rest[i - 1] == list[i];
          assert forall j :: 0 <= j < i - 1 ==> rest[j] == list[j + 1];
        }
      }
      assert forall i :: 0 < i < |list| ==> list[i] == rest[i - 1];
    }
  }

  /** Idempotence: once attached, wherever the kernel put it, a filter is reused. */
  lemma {:induction false} AttachedIsReused(list: seq<Filter>, want: Filter, k: nat)
    requires k <= |list| && Decide(list, want) == Attach
    ensures Decide(InsertAt(list, k, want), want) == Reuse
  {
    if k > 0 {
      AttachedIsReused(list[1..], want, k - 1);
      assert InsertAt(list, k, want)[1..] == InsertAt(list[1..], k - 1, want);
    }
  }

  /** Attaching another fixed filter, anywhere in the list, does not change a decision. */
  lemma {:induction false} OthersDoNotMatter(list: seq<Filter>, want: Filter, other: Filter, k: nat)
    requires k <= |list| && Fixed(other) && !SameHandle(other, want)
    ensures Decide(InsertAt(list, k, other), want) == Decide(list, want)
  {
    if k == 0 {
      assert InsertAt(list, 0, other)[1..] == list;
    } else {
      OthersDoNotMatter(list[1..], want, other, k - 1);
      assert InsertAt(list, k, other)[1..] == InsertAt(list[1..], k - 1, other);
    }
  }

  /** Two wanted filters with one handle cannot be one attached and one established. */
  lemma {:induction false} ReuseExcludesAttach(list: seq<Filter>, want: Filter, other: Filter)
    requires Decide(list, want) == Reuse && Decide(list, other) == Attach
    ensures !SameHandle(other, want)
  {
    if !SameHandle(list[0], want) {
      ReuseExcludesAttach(list[1..], want, other);
    }
  }

  /** At the fixed priority, one hook and handle names one filter. */
  predicate UniqueHandles(list: seq<Filter>) {
    forall i, j :: 0 <= i < j < |list| && list[i].priority == FIXED_PRIORITY ==> !SameHandle(list[i], list[j])
  }

  lemma UniquenessKept(list: seq<Filter>, want: Filter, k: nat)
    requires k <= |list| && UniqueHandles(list) && Decide(list, want) == Attach
    ensures UniqueHandles(InsertAt(list, k, want))
  {
    DecideMeans(list, want);
    var r := InsertAt(list, k, want);
    forall i, j | 0 <= i < j < |r| && r[i].priority == FIXED_PRIORITY
      ensures !SameHandle(r[i], r[j])
    {
      InsertedAt(list, k, want, i);
      InsertedAt(list, k, want, j);
    }
  }

  lemma InsertedAt(list: seq<Filter>, k: nat, f: Filter, i: nat)
    requires k <= |list| && i <= |list|
    ensures InsertAt(list, k, f)[i] == if i < k then list[i] else if i == k then f else list[i - 1]
  {
  }

  /** The index `RemoveFilter` stops at: the first filter with the wanted handle. */
  function FindHandle(list: seq<Filter>, want: Filter): (r: Option<nat>)
    ensures r.Some? ==> r.value < |list| && SameHandle(list[r.value], want)
    ensures r.None? ==> forall i :: 0 <= i < |list| ==> !SameHandle(list[i], want)
  {
    if list == [] then None
    else if SameHandle(list[0], want) then Some(0)
    else match FindHandle(list[1..], want)
         case None => None
         case Some(i) => Some(i + 1)
  }

  function Removed(list: seq<Filter>, want: Filter): seq<Filter> {
    match FindHandle(list, want)
    case None => list
    case Some(i) => if SameFilter(list[i], want) then list[..i] + list[i + 1..] else list
  }

  /** The first filter with the wanted hook, priority and handle goes if it has the wanted
      program ID and direct-action flag; in every other case the list stays. */
  lemma RemovedMeans(list: seq<Filter>, want: Filter, i: nat)
    requires i <= |list|
    requires forall j :: 0 <= j < i ==>
               list[j].hook != want.hook || list[j].priority != want.priority || list[j].handle != want.handle
    requires i < |list| ==>
               list[i].hook == want.hook && list[i].priority == want.priority && list[i].handle == want.handle
    ensures Removed(list, want) ==
            if i < |list| && list[i].programId == want.programId && list[i].directAction == want.directAction
            then list[..i] + list[i + 1..] else list
  {
    FoundFirst(list, want, i);
  }

  lemma {:induction false} FoundFirst(list: seq<Filter>, want: Filter, i: nat)
    requires i <= |list| && forall j :: 0 <= j < i ==> !SameHandle(list[j], want)
    requires i < |list| ==> SameHandle(list[i], want)
    ensures FindHandle(list, want) == if i < |list| then Some(i) else None
  {
    if i > 0 {
      assert !SameHandle(list[0], want);
      FoundFirst(list[1..], want, i - 1);
    }
  }

  lemma InsertedLater(list: seq<Filter>, k: nat, f: Filter)
    requires 0 < k <= |list|
    ensures InsertAt(list, k, f)[0] == list[0] && InsertAt(list, k, f)[1..] == InsertAt(list[1..], k - 1, f)
  {
  }

  lemma {:induction false} FoundInserted(list: seq<Filter>, want: Filter, k: nat)
    requires k <= |list| && Decide(list, want) == Attach
    ensures FindHandle(InsertAt(list, k, want), want) == Some(k)
  {
    if k > 0 {
      FoundInserted(list[1..], want, k - 1);
      assert !SameHandle(list[0], want);
      InsertedLater(list, k, want);
    }
  }

  lemma CutOut(list: seq<Filter>, k: nat, f: Filter)
    requires k <= |list|
    ensures InsertAt(list, k, f)[..k] + InsertAt(list, k, f)[k + 1..] == list
  {
    var r := InsertAt(list, k, f);
    assert r[..k] == list[..k] && r[k + 1..] == list[k..];
  }

  /** Removal undoes attachment: the list is the one before, foreign filters included. */
  lemma RemoveUndoesAttach(list: seq<Filter>, want: Filter, k: nat)
    requires k <= |list| && Decide(list, want) == Attach
    ensures Removed(InsertAt(list, k, want), want) == list
  {
    FoundInserted(list, want, k);
    CutOut(list, k, want);
    InsertedAt(list, k, want, k);
  }

  /** Failures of the environment during one TC operation, and the place the kernel gives
      a new filter. */
  datatype TcFaults = TcFaults(cancelled: bool, enterNetns: bool, clsact: bool, list: bool, load: bool,
                               netlink: bool, leaveNetns: bool, position: nat)

  const NO_TC_FAULTS := TcFaults(false, false, false, false, false, false, false, 0)

  /** The environment does not fail; the kernel puts the new filter anywhere. */
  predicate NothingFails(f: TcFaults) {
    f == NO_TC_FAULTS.(position := f.position)
  }

  datatype TcError = InvalidSpec | Cancelled | NamespaceError | BackendError | ForeignConflict

  /** The operation gets as far as listing the link's filters. */
  predicate Reaches(spec: FilterSpec, f: TcFaults) {
    && ValidSpec(spec) && !f.cancelled
    && (spec.link.netns != 0 ==> spec.link.path != "" && !f.enterNetns)
    && !f.list
  }

  predicate LeavesSafely(spec: FilterSpec, f: TcFaults) {
    spec.link.netns == 0 || !f.leaveNetns
  }

  /** The pinned program is the one the filter names. */
  predicate Loadable(programs: PinnedPrograms, want: Filter) {
    want.program in programs && programs[want.program].id == want.programId
  }

  /** The operation adds its filter. */
  predicate Attaches(host: Pins, spec: FilterSpec, f: TcFaults) {
    && Reaches(spec, f) && !f.clsact
    && Decide(FiltersAt(host.filters, spec.link), spec.filter) == Attach
    && Loadable(host.programs, spec.filter) && !f.load && !f.netlink
  }

  predicate Ensures(host: Pins, spec: FilterSpec, f: TcFaults) {
    && Reaches(spec, f) && !f.clsact && LeavesSafely(spec, f)
    && (Decide(FiltersAt(host.filters, spec.link), spec.filter) == Reuse || Attaches(host, spec, f))
  }

  /** The request is in order, and the list of the link can be reached and left again. */
  predicate WellBehaved(spec: FilterSpec, f: TcFaults) {
    && InOrder(spec) && !f.cancelled && !f.clsact && !f.list
    && (spec.link.netns == 0 || (spec.link.path != "" && !f.enterNetns && !f.leaveNetns))
  }

  /** Success and attachment in full. Success: the wanted filter is the first of its kind, or nothing is in the way
      and the pinned program of that name and ID can be attached. */
  lemma EnsuresMeans(host: Pins, spec: FilterSpec, f: TcFaults)
    ensures var list, want := FiltersAt(host.filters, spec.link), spec.filter;
            Ensures(host, spec, f) <==>
            && WellBehaved(spec, f)
            && (|| Present(list, want)
                || (&& !Obstructed(list, want)
                    && want.program in host.programs && host.programs[want.program].id == want.programId
                    && !f.load && !f.netlink))
    ensures var list, want := FiltersAt(host.filters, spec.link), spec.filter;
            Attaches(host, spec, f) <==>
            && InOrder(spec) && !f.cancelled && !f.clsact && !f.list
            && (spec.link.netns == 0 || (spec.link.path != "" && !f.enterNetns))
            && !Obstructed(list, want) && !Present(list, want)
            && want.program in host.programs && host.programs[want.program].id == want.programId
            && !f.load && !f.netlink
  {
    InOrderIsValid(spec);
    if InOrder(spec) {
      DecisionOnIdentities(FiltersAt(host.filters, spec.link), spec.filter);
    }
  }

  class TCManager {
    const host: Host

    constructor (host: Host)
      ensures this.host == host
    {
      this.host := host;
    }

    /** The filter is established on success; otherwise the list is unchanged, unless the
        filter was added and the way back out of the namespace failed. */
    method EnsureFilter(spec: FilterSpec, f: TcFaults) returns (r: Result<Filter, TcError>)
      modifies host`filters, host`log
      ensures var list := FiltersAt(old(host.filters), spec.link);
              host.filters == if Attaches(old(host.View()), spec, f)
                              then old(host.filters)[Key(spec.link) :=
                                     InsertAt(list, f.position % (|list| + 1), spec.filter)]
                              else old(host.filters)
      ensures host.log == old(host.log) +
                          if Attaches(old(host.View()), spec, f) then [Change(FilterChanged, host.FastPathOn())] else []
      ensures r.Success? <==> Ensures(old(host.View()), spec, f)
      ensures r.Success? ==> IsWanted(r.value, spec.filter)
      ensures r == Failure(ForeignConflict) <==>
              WellBehaved(spec, f) && Obstructed(FiltersAt(old(host.filters), spec.link), spec.filter)
      ensures r == Failure(ForeignConflict) ==> host.filters == old(host.filters)
    {
      InOrderIsValid(spec);
      if InOrder(spec) {
        DecisionOnIdentities(FiltersAt(host.filters, spec.link), spec.filter);
      }
      if !ValidSpec(spec) {
        return Failure(InvalidSpec);
      }
      if f.cancelled {
        return Failure(Cancelled);
      }
      if spec.link.netns != 0 && (spec.link.path == "" || f.enterNetns) {
        return Failure(NamespaceError);
      }
      r := EnsureInNamespace(spec, f);
      if spec.link.netns != 0 && f.leaveNetns {
        r := Failure(NamespaceError);
      }
    }

    method EnsureInNamespace(spec: FilterSpec, f: TcFaults) returns (r: Result<Filter, TcError>)
      requires ValidSpec(spec) && !f.cancelled && (spec.link.netns != 0 ==> spec.link.path != "" && !f.enterNetns)
      modifies host`filters, host`log
      ensures var list := FiltersAt(old(host.filters), spec.link);
              host.filters == if Attaches(old(host.View()), spec, f)
                              then old(host.filters)[Key(spec.link) :=
                                     InsertAt(list, f.position % (|list| + 1), spec.filter)]
                              else old(host.filters)
      ensures host.log == old(host.log) +
                          if Attaches(old(host.View()), spec, f) then [Change(FilterChanged, host.FastPathOn())] else []
      ensures var plan := Decide(FiltersAt(old(host.filters), spec.link), spec.filter);
              && (r.Success? <==> !f.list && !f.clsact && (plan == Reuse || Attaches(old(host.View()), spec, f)))
              && (r.Success? ==> SameFilter(r.value, spec.filter))
              && (r == Failure(ForeignConflict) <==> !f.list && !f.clsact && plan == Conflict)
              && r != Failure(NamespaceError)
    {
      if f.clsact || f.list {
        return Failure(BackendError);
      }
      var plan, current := Examine(FiltersAt(host.filters, spec.link), spec.filter);
      if plan == Reuse {
        return Success(current);
      }
      if plan == Conflict {
        return Failure(ForeignConflict);
      }
      if !Loadable(host.programs, spec.filter) || f.load || f.netlink {
        return Failure(BackendError);
      }
      host.AddFilter(spec.link, f.position, spec.filter);
      return Success(spec.filter);
    }

    /** The loop over the filters of the link. */
    method Examine(list: seq<Filter>, want: Filter) returns (plan: Plan, current: Filter)
      ensures plan == Decide(list, want)
      ensures plan == Reuse ==> SameFilter(current, want)
    {
      current := want;
      var i := 0;
      while i < |list|
        invariant 0 <= i <= |list|
        invariant Decide(list, want) == Decide(list[i..], want)
      {
        current := list[i];
        if SamePlace(current, want) {
          if current.handle == want.handle {
            return if SameFilter(current, want) then Reuse else Conflict, current;
          }
          if !FixedAttachment(current) {
            return Conflict, current;
          }
        }
        i := i + 1;
      }
      plan := Attach;
    }

    /** Only the wanted filter itself is removed; a different one under its handle stays. */
    method RemoveFilter(spec: FilterSpec, f: TcFaults) returns (r: Result<(), TcError>)
      modifies host`filters, host`log
      ensures var list := FiltersAt(old(host.filters), spec.link);
              FiltersAt(host.filters, spec.link) ==
              if Reaches(spec, f) && !f.netlink then Removed(list, spec.filter) else list
      ensures forall key :: key != Key(spec.link) && key in old(host.filters) ==>
                key in host.filters && host.filters[key] == old(host.filters)[key]
      ensures r.Success? <==>
              && Reaches(spec, f) && LeavesSafely(spec, f)
              && var list := FiltersAt(old(host.filters), spec.link);
              match FindHandle(list, spec.filter)
              case None => true
              case Some(i) => SameFilter(list[i], spec.filter) && !f.netlink
    {
      if !ValidSpec(spec) {
        return Failure(InvalidSpec);
      }
      if f.cancelled {
        return Failure(Cancelled);
      }
      if spec.link.netns != 0 && (spec.link.path == "" || f.enterNetns) {
        return Failure(NamespaceError);
      }
      r := RemoveInNamespace(spec, f);
      if spec.link.netns != 0 && f.leaveNetns {
        r := Failure(NamespaceError);
      }
    }

    method RemoveInNamespace(spec: FilterSpec, f: TcFaults) returns (r: Result<(), TcError>)
      modifies host`filters, host`log
      ensures var list := FiltersAt(old(host.filters), spec.link);
              FiltersAt(host.filters, spec.link) == if !f.list && !f.netlink then Removed(list, spec.filter) else list
      ensures forall key :: key != Key(spec.link) && key in old(host.filters) ==>
                key in host.filters && host.filters[key] == old(host.filters)[key]
      ensures r.Success? <==>
              && !f.list
              && var list := FiltersAt(old(host.filters), spec.link);
              match FindHandle(list, spec.filter)
              case None => true
              case Some(i) => SameFilter(list[i], spec.filter) && !f.netlink
    {
      if f.list {
        return Failure(BackendError);
      }
      var list := FiltersAt(host.filters, spec.link);
      var i := 0;
      while i < |list|
        invariant 0 <= i <= |list|
        invariant FindHandle(list, spec.filter) ==
                  match FindHandle(list[i..], spec.filter) case None => None case Some(k) => Some(i + k)
      {
        if SameHandle(list[i], spec.filter) {
          if !SameFilter(list[i], spec.filter) {
            return Failure(ForeignConflict);
          }
          if f.netlink {
            return Failure(BackendError);
          }
          host.DeleteFilter(spec.link, i);
          return Success(());
        }
        i := i + 1;
      }
      return Success(());
    }
  }
}
