/** Loading the collection and pinning it all or not at all. */
module PinManager {
  import opened Wrappers
  import opened Caches
  import opened Kernel
  import opened Observation
  import opened ControlWriter

  /** The programs and maps an object file declares, or the agent expects. */
  datatype Collection = Collection(programs: set<ProgramName>, maps: map<MapName, MapDescriptor>)

  const V1_SCHEMA := Collection(REQUIRED_PROGRAMS, SCHEMA)

  /** Failures while a collection is loaded, and the IDs of what is loaded. A kernel load that
      fails may already have pinned some of the missing maps: `strays`. */
  datatype LoadFaults = LoadFaults(cancelled: bool, read: bool, inspect: bool, directories: bool, load: bool,
                                   close: bool, strays: set<MapName>, pinFails: set<ProgramName>,
                                   unpinFails: set<ProgramName>, unpinMapFails: set<MapName>,
                                   programIds: map<ProgramName, nat>, mapIds: map<MapName, nat>,
                                   control: ControlFaults)

  const NO_LOAD_FAULTS := LoadFaults(false, false, false, false, false, false, {}, {}, {}, {}, map[], map[],
                                     NO_CONTROL_FAULTS)

  /** The kernel's ID of a new object; 0 stands for none reported. */
  function IdOf<K>(ids: map<K, nat>, name: K): nat {
    if name in ids then ids[name] else 0
  }

  predicate UnpinningWorks(f: LoadFaults) {
    f.unpinFails == {} && f.unpinMapFails == {}
  }

  /** Everything in `before` is in `after`, unchanged. */
  ghost predicate Kept<K, V>(before: map<K, V>, after: map<K, V>) {
    forall k :: k in before ==> k in after && after[k] == before[k]
  }

  /** Taking back what was added, save for what cannot be unpinned. */
  lemma TakingBack<K, V>(before: map<K, V>, added: map<K, V>, fails: set<K>)
    requires added.Keys !! before.Keys
    ensures var after := before + added - (added.Keys - fails);
            Kept(before, after) && Kept(after, before + added) && (fails == {} ==> after == before)
  {
  }

  /** Every expected map that is pinned has the expected schema. */
  predicate Conforms(maps: PinnedMaps, schema: Collection) {
    forall name :: name in schema.maps && name in maps ==> maps[name].descriptor == schema.maps[name]
  }

  /** New pins: empty maps of the schema, and programs, under the IDs the kernel gives them. */
  function NewMaps(names: set<MapName>, schema: Collection, ids: map<MapName, nat>): (r: PinnedMaps)
    requires names <= schema.maps.Keys
    ensures r.Keys == names
  {
    map name | name in names :: PinnedMap(IdOf(ids, name), schema.maps[name], map[])
  }

  function NewPrograms(names: set<ProgramName>, ids: map<ProgramName, nat>, uses: map<MapName, nat>)
    : (r: PinnedPrograms)
    ensures r.Keys == names
  {
    map name | name in names :: ProgramState(IdOf(ids, name), Some(name), uses)
  }

  lemma OneMoreProgram(before: PinnedPrograms, names: set<ProgramName>, ids: map<ProgramName, nat>,
                       uses: map<MapName, nat>, name: ProgramName)
    ensures (before + NewPrograms(names, ids, uses))[name := ProgramState(IdOf(ids, name), Some(name), uses)] ==
            before + NewPrograms(names + {name}, ids, uses)
  {
  }

  function IdsOf(maps: PinnedMaps, names: set<MapName>): map<MapName, nat> {
    map name | name in names && name in maps :: maps[name].id
  }

  /** The maps that programs are loaded with beside the pins that were there: those pinned,
      and new ones for the rest. */
  function MapsInUse(maps: PinnedMaps, schema: Collection, mapIds: map<MapName, nat>): map<MapName, nat> {
    IdsOf(maps + NewMaps(schema.maps.Keys - maps.Keys, schema, mapIds), schema.maps.Keys)
  }

  /** The maps a failing kernel load leaves pinned. */
  function Strays(maps: PinnedMaps, schema: Collection, f: LoadFaults): (r: PinnedMaps)
    ensures r.Keys == f.strays * schema.maps.Keys - maps.Keys
  {
    NewMaps(f.strays * schema.maps.Keys - maps.Keys, schema, f.mapIds)
  }

  /** The host after the collection was loaded beside the pins that were there. */
  function AfterLoad(pins: Pins, schema: Collection, programIds: map<ProgramName, nat>, mapIds: map<MapName, nat>): Pins
  {
    pins.(programs := pins.programs + NewPrograms(schema.programs, programIds,
                                                  MapsInUse(pins.maps, schema, mapIds)),
          maps := pins.maps + NewMaps(schema.maps.Keys - pins.maps.Keys, schema, mapIds))
  }

  /** The collection gets as far as the kernel load. */
  predicate ReachesLoad(elf: Collection, schema: Collection, pins: Pins, f: LoadFaults) {
    && elf == schema && !f.inspect && Conforms(pins.maps, schema) && !f.directories
    && elf.programs !! pins.programs.Keys
  }

  /** The kernel load is reached, and fails. */
  predicate LoadFails(elf: Collection, schema: Collection, pins: Pins, f: LoadFaults) {
    !f.cancelled && !f.read && ReachesLoad(elf, schema, pins, f) && f.load
  }

  /** Nothing stands in the way of loading, pinning and initializing. */
  predicate Initializes(elf: Collection, schema: Collection, pins: Pins, control: Control, f: LoadFaults) {
    && !f.cancelled && !f.read && ReachesLoad(elf, schema, pins, f) && !f.load && elf.programs !! f.pinFails
    && !f.control.cancelled && !f.control.open && !f.control.lookup && !f.control.update
    && (ControlMap in pins.maps ==> control.abiVersion == 0 || control.abiVersion == ABI_VERSION)
  }

  /** The maps after a load that failed, if unpinning works. */
  function MapsLeft(elf: Collection, schema: Collection, pins: Pins, f: LoadFaults): PinnedMaps {
    pins.maps + if LoadFails(elf, schema, pins, f) then Strays(pins.maps, schema, f) else map[]
  }

  /** A load that fails leaves something behind although unpinning works: only closing the
      handle fails, or the kernel load fails after pinning a map. */
  predicate Strands(elf: Collection, schema: Collection, pins: Pins, control: Control, f: LoadFaults) {
    || Initializes(elf, schema, pins, control, f)
    || (LoadFails(elf, schema, pins, f) && Strays(pins.maps, schema, f) != map[])
  }

  /** Nothing was pinned, or, beside pins that were in no way of it, part of a collection. */
  ghost predicate PartlyLoaded(schema: Collection, f: LoadFaults, a: Pins, b: Pins) {
    || (b.maps == a.maps && b.programs == a.programs)
    || (schema.programs !! a.programs.Keys
        && Kept(b.maps, AfterLoad(a, schema, f.programIds, f.mapIds).maps)
        && Kept(b.programs, AfterLoad(a, schema, f.programIds, f.mapIds).programs))
  }

  /** The pinned program uses the pinned maps, as far as they are pinned. */
  predicate UsesPinned(program: ProgramState, schema: Collection, maps: PinnedMaps) {
    && program.maps.Keys == schema.maps.Keys
    && forall name :: name in program.maps && name in maps ==> maps[name].id == program.maps[name]
  }

  /** New pinned programs use the pinned maps, and a map of the schema was pinned only where
      no program of it was. */
  ghost predicate PinsLinked(schema: Collection, a: Pins, b: Pins) {
    && (forall p :: p in b.programs && p !in a.programs ==>
          p in schema.programs && UsesPinned(b.programs[p], schema, b.maps))
    && (forall name :: name in schema.maps && name in b.maps && name !in a.maps ==>
          schema.programs !! a.programs.Keys)
  }

  lemma PartlyLoadedIsLinked(schema: Collection, f: LoadFaults, a: Pins, b: Pins)
    requires PartlyLoaded(schema, f, a, b)
    ensures PinsLinked(schema, a, b)
  {
  }

  /** What was there is kept, and nothing is done with the fast path on if it was off. */
  ghost predicate Grew(schema: Collection, f: LoadFaults, a: HostState, b: HostState) {
    && Kept(a.pins.maps, b.pins.maps) && Kept(a.pins.programs, b.pins.programs)
    && PartlyLoaded(schema, f, a.pins, b.pins)
    && (!a.On() ==> !b.On() && MadeWhileOff(a.log, b.log))
  }

  /** How a load ends. */
  ghost predicate LoadOutcome(elf: Collection, schema: Collection, f: LoadFaults, a: HostState, b: HostState,
                              ok: bool) {
    && Grew(schema, f, a, b)
    && (ok <==> Initializes(elf, schema, a.pins, a.control, f) && !f.close)
    && (Initializes(elf, schema, a.pins, a.control, f) ==>
          && b.pins == AfterLoad(a.pins, schema, f.programIds, f.mapIds)
          && b.control == ZERO_CONTROL.(abiVersion := ABI_VERSION))
    && (!Initializes(elf, schema, a.pins, a.control, f) && UnpinningWorks(f) ==>
          b.pins == a.pins.(maps := MapsLeft(elf, schema, a.pins, f)))
  }

  /** The collection is pinned, with what was there before: empty maps of the schema, and
      programs that use exactly the pinned maps. */
  ghost predicate PinnedWhole(schema: Collection, a: Pins, b: Pins) {
    && b.filters == a.filters && b.marker == a.marker
    && b.programs.Keys == a.programs.Keys + schema.programs && b.maps.Keys == a.maps.Keys + schema.maps.Keys
    && (forall p :: p in a.programs && p !in schema.programs ==> b.programs[p] == a.programs[p])
    && (forall p :: p in schema.programs ==> b.programs[p].name == Some(p) && UsesAll(b.programs[p], schema, b.maps))
    && (forall name :: name in a.maps ==> b.maps[name] == a.maps[name])
    && (forall name :: name in schema.maps && name !in a.maps ==>
          b.maps[name].descriptor == schema.maps[name] && b.maps[name].entries == map[])
  }

  predicate UsesAll(program: ProgramState, schema: Collection, maps: PinnedMaps) {
    && program.maps.Keys == schema.maps.Keys
    && forall name :: name in schema.maps ==> name in maps && program.maps[name] == maps[name].id
  }

  /** A load succeeds exactly if the object file is the expected collection, no program of it
      is pinned, the maps that are pinned have its schemas, the control value is unset or of
      the agent's ABI, and no call fails; then the whole collection is pinned and the control
      value is a disabled one. */
  lemma LoadMeans(elf: Collection, schema: Collection, f: LoadFaults, a: HostState, b: HostState, ok: bool)
    requires LoadOutcome(elf, schema, f, a, b, ok)
    ensures ok <==>
            && elf == schema
            && (forall p :: p in schema.programs ==> p !in a.pins.programs && p !in f.pinFails)
            && (forall name :: name in schema.maps && name in a.pins.maps ==>
                  a.pins.maps[name].descriptor == schema.maps[name])
            && (ControlMap in a.pins.maps ==> a.control.abiVersion <= 1)
            && !f.cancelled && !f.read && !f.inspect && !f.directories && !f.load && !f.close
            && !f.control.cancelled && !f.control.open && !f.control.lookup && !f.control.update
    ensures ok ==> PinnedWhole(schema, a.pins, b.pins) && b.control == Control(1, 0, 0, 0, 0, 0)
  {
  }

  /** The rollback is exact: a load that fails takes back what it pinned exactly when it does
      not strand it. */
  lemma TakenBackUnlessStranded(elf: Collection, schema: Collection, f: LoadFaults, a: HostState, b: HostState)
    requires LoadOutcome(elf, schema, f, a, b, false) && UnpinningWorks(f) && schema.programs != {}
    ensures b.pins == a.pins <==> !Strands(elf, schema, a.pins, a.control, f)
  {
    if Initializes(elf, schema, a.pins, a.control, f) {
      var name :| name in schema.programs;
      assert name in b.pins.programs && name !in a.pins.programs;
    } else if LoadFails(elf, schema, a.pins, f) && Strays(a.pins.maps, schema, f) != map[] {
      var name :| name in Strays(a.pins.maps, schema, f);
      assert name in b.pins.maps && name !in a.pins.maps;
    }
  }

  /** Two loads into a bare host that strand something: one in which only closing the handle
      fails, and one in which the kernel fails after pinning the control map. */
  lemma FailuresThatStrand(ids: map<ProgramName, nat>, mapIds: map<MapName, nat>, control: Control)
    ensures var bare, f := Pins(map[], map[], map[], false), NO_LOAD_FAULTS.(programIds := ids, mapIds := mapIds);
            && Strands(V1_SCHEMA, V1_SCHEMA, bare, control, f.(close := true))
            && Strands(V1_SCHEMA, V1_SCHEMA, bare, control, f.(load := true, strays := {ControlMap}))
  {
    var f := NO_LOAD_FAULTS.(programIds := ids, mapIds := mapIds, load := true, strays := {ControlMap});
    assert ControlMap in Strays(map[], V1_SCHEMA, f);
  }

  /** How a load ends that does not get as far as pinned programs. */
  ghost predicate PinFailed(elf: Collection, schema: Collection, f: LoadFaults, a: HostState, b: HostState) {
    && Grew(schema, f, a, b)
    && (ControlMap in a.pins.maps ==> b.control == a.control)
    && (UnpinningWorks(f) ==>
          b.pins == a.pins.(maps := a.pins.maps + if ReachesLoad(elf, schema, a.pins, f) && f.load
                                                  then Strays(a.pins.maps, schema, f) else map[]))
  }

  lemma NothingPinned(elf: Collection, schema: Collection, f: LoadFaults, a: HostState)
    requires !ReachesLoad(elf, schema, a.pins, f)
    ensures PinFailed(elf, schema, f, a, a)
  {
  }

  lemma StraysPinned(elf: Collection, schema: Collection, f: LoadFaults, a: HostState, b: HostState)
    requires ReachesLoad(elf, schema, a.pins, f) && f.load
    requires b.pins == a.pins.(maps := a.pins.maps + Strays(a.pins.maps, schema, f))
    requires ControlMap in a.pins.maps ==> b.control == a.control
    requires !a.On() ==> !b.On() && MadeWhileOff(a.log, b.log)
    ensures PinFailed(elf, schema, f, a, b)
  {
  }

  lemma TakenBack(elf: Collection, schema: Collection, f: LoadFaults, a: HostState, b: HostState)
    requires ReachesLoad(elf, schema, a.pins, f) && !f.load
    requires Kept(a.pins.maps, b.pins.maps) && Kept(a.pins.programs, b.pins.programs)
    requires Kept(b.pins.maps, AfterLoad(a.pins, schema, f.programIds, f.mapIds).maps)
    requires Kept(b.pins.programs, AfterLoad(a.pins, schema, f.programIds, f.mapIds).programs)
    requires ControlMap in a.pins.maps ==> b.control == a.control
    requires UnpinningWorks(f) ==> b.pins == a.pins
    requires !a.On() ==> !b.On() && MadeWhileOff(a.log, b.log)
    ensures PinFailed(elf, schema, f, a, b)
  {
  }

  lemma NothingLoaded(elf: Collection, schema: Collection, f: LoadFaults, a: HostState)
    requires f.cancelled || f.read
    ensures LoadOutcome(elf, schema, f, a, a, false)
  {
  }

  lemma NotPinned(elf: Collection, schema: Collection, f: LoadFaults, a: HostState, b: HostState)
    requires !f.cancelled && !f.read && PinFailed(elf, schema, f, a, b)
    requires !ReachesLoad(elf, schema, a.pins, f) || f.load || !(elf.programs !! f.pinFails)
    ensures LoadOutcome(elf, schema, f, a, b, false)
  {
  }

  /** The control map of a collection that was loaded and pinned is initialized, or not. */
  lemma Initialized(elf: Collection, schema: Collection, f: LoadFaults, a: HostState, m: HostState, b: HostState,
                    ok: bool)
    requires !f.cancelled && !f.read && ReachesLoad(elf, schema, a.pins, f) && !f.load && elf.programs !! f.pinFails
    requires ControlMap in schema.maps && Grew(schema, f, a, b)
    requires m.pins == AfterLoad(a.pins, schema, f.programIds, f.mapIds)
    requires m.control == if ControlMap in a.pins.maps then a.control else ZERO_CONTROL
    requires ok <==> Accessible(m.pins.maps, f.control)
                     && (m.control.abiVersion == 0 || m.control.abiVersion == ABI_VERSION)
    requires if ok then b.pins == m.pins && b.control == ZERO_CONTROL.(abiVersion := ABI_VERSION)
             else UnpinningWorks(f) ==> b.pins == a.pins
    ensures LoadOutcome(elf, schema, f, a, b, ok && !f.close)
  {
  }

  class LoadedCollection {
    const host: Host
    var ownedMaps: set<MapName>
    var ownedPrograms: set<ProgramName>

    constructor (host: Host)
      ensures this.host == host && ownedMaps == {} && ownedPrograms == {}
    {
      this.host := host;
      ownedMaps, ownedPrograms := {}, {};
    }

    /** `LoadedCollection.Unpin` takes back what the collection owns and nothing else,
        going on after a failure. */
    method Unpin(f: LoadFaults) returns (ok: bool)
      modifies host`maps, host`programs, host`log
      ensures host.programs == old(host.programs) - (ownedPrograms - f.unpinFails)
      ensures host.maps == old(host.maps) - (ownedMaps - f.unpinMapFails)
      ensures ok <==> ownedPrograms !! f.unpinFails && ownedMaps !! f.unpinMapFails
      ensures !old(host.FastPathOn()) ==> MadeWhileOff(old(host.log), host.log)
    {
      var programsOk := UnpinPrograms(f.unpinFails);
      var mapsOk := UnpinMaps(f.unpinMapFails);
      ok := programsOk && mapsOk;
    }

    method UnpinPrograms(fails: set<ProgramName>) returns (ok: bool)
      modifies host`programs, host`log
      ensures host.programs == old(host.programs) - (ownedPrograms - fails)
      ensures ok <==> ownedPrograms !! fails
      ensures !host.FastPathOn() ==> MadeWhileOff(old(host.log), host.log)
    {
      ok := true;
      var todo := ownedPrograms;
      while todo != {}
        invariant todo <= ownedPrograms
        invariant host.programs == old(host.programs) - (ownedPrograms - todo - fails)
        invariant ok <==> (ownedPrograms - todo) !! fails
        invariant !host.FastPathOn() ==> MadeWhileOff(old(host.log), host.log)
        decreases |todo|
      {
        var name :| name in todo;
        todo := todo - {name};
        if name in fails {
          ok := false;
        } else {
          host.UnpinProgram(name);
        }
      }
      assert ownedPrograms - todo - fails == ownedPrograms - fails;
    }

    method UnpinMaps(fails: set<MapName>) returns (ok: bool)
      modifies host`maps, host`log
      ensures host.maps == old(host.maps) - (ownedMaps - fails)
      ensures ok <==> ownedMaps !! fails
      ensures !old(host.FastPathOn()) ==> MadeWhileOff(old(host.log), host.log)
    {
      ok := true;
      var todo := ownedMaps;
      while todo != {}
        invariant todo <= ownedMaps
        invariant host.maps == old(host.maps) - (ownedMaps - todo - fails)
        invariant ok <==> (ownedMaps - todo) !! fails
        invariant !old(host.FastPathOn()) ==> MadeWhileOff(old(host.log), host.log)
        decreases |todo|
      {
        var name :| name in todo;
        todo := todo - {name};
        if name in fails {
          ok := false;
        } else {
          host.UnpinMap(name);
        }
      }
      assert ownedMaps - todo - fails == ownedMaps - fails;
    }
  }

  class Manager {
    const host: Host

    constructor (host: Host)
      ensures this.host == host
    {
      this.host := host;
    }

    /** The kernel load: wanted maps that are not pinned yet are created, empty, and pinned. */
    method PinMissingMaps(wanted: set<MapName>, schema: Collection, f: LoadFaults) returns (owned: set<MapName>)
      requires wanted <= schema.maps.Keys
      modifies host`maps, host`control, host`log
      ensures owned == wanted - old(host.maps).Keys
      ensures host.maps == old(host.maps) + NewMaps(owned, schema, f.mapIds)
      ensures host.control == if ControlMap in owned then ZERO_CONTROL else old(host.control)
      ensures !old(host.FastPathOn()) ==> !host.FastPathOn() && MadeWhileOff(old(host.log), host.log)
    {
      owned := wanted - host.maps.Keys;
      var done: set<MapName> := {};
      while owned - done != {}
        invariant done <= owned
        invariant host.maps == old(host.maps) + NewMaps(done, schema, f.mapIds)
        invariant host.control == if ControlMap in done then ZERO_CONTROL else old(host.control)
        invariant !old(host.FastPathOn()) ==> !host.FastPathOn() && MadeWhileOff(old(host.log), host.log)
        decreases owned - done
      {
        var name :| name in owned - done;
        done := done + {name};
        host.PinMap(name, PinnedMap(IdOf(f.mapIds, name), schema.maps[name], map[]));
      }
      assert done == owned;
    }

    /** The pinning loop, in any order: it ends with every program pinned and owned, or
        stops at one that cannot be pinned. */
    method PinPrograms(loaded: LoadedCollection, names: set<ProgramName>, uses: map<MapName, nat>, f: LoadFaults)
      returns (ok: bool)
      requires loaded.host == host && loaded.ownedPrograms == {} && names !! host.programs.Keys
      modifies host`programs, host`log, loaded`ownedPrograms
      ensures ok <==> names !! f.pinFails
      ensures loaded.ownedPrograms <= names && (ok ==> loaded.ownedPrograms == names)
      ensures host.programs == old(host.programs) + NewPrograms(loaded.ownedPrograms, f.programIds, uses)
      ensures !host.FastPathOn() ==> MadeWhileOff(old(host.log), host.log)
    {
      while names - loaded.ownedPrograms != {}
        invariant loaded.ownedPrograms <= names && loaded.ownedPrograms !! f.pinFails
        invariant host.programs == old(host.programs) + NewPrograms(loaded.ownedPrograms, f.programIds, uses)
        invariant !host.FastPathOn() ==> MadeWhileOff(old(host.log), host.log)
        decreases names - loaded.ownedPrograms
      {
        var name :| name in names - loaded.ownedPrograms;
        if name in f.pinFails {
          return false;
        }
        OneMoreProgram(old(host.programs), loaded.ownedPrograms, f.programIds, uses, name);
        host.PinProgram(name, ProgramState(IdOf(f.programIds, name), Some(name), uses));
        loaded.ownedPrograms := loaded.ownedPrograms + {name};
      }
      assert loaded.ownedPrograms == names;
      ok := true;
    }

    /** Pins the programs of a collection that was loaded, or takes its pins back. The maps
        of `added` were pinned for it beside those of `before`. */
    method PinOrTakeBack(loaded: LoadedCollection, names: set<ProgramName>, uses: map<MapName, nat>, f: LoadFaults,
                         ghost before: PinnedMaps, ghost added: PinnedMaps)
      returns (ok: bool)
      requires loaded.host == host && loaded.ownedPrograms == {} && names !! host.programs.Keys
      requires loaded.ownedMaps == added.Keys && added.Keys !! before.Keys && host.maps == before + added
      modifies host`maps, host`programs, host`log, loaded`ownedPrograms
      ensures ok <==> names !! f.pinFails
      ensures ok ==> loaded.ownedPrograms == names && host.maps == old(host.maps)
                     && host.programs == old(host.programs) + NewPrograms(names, f.programIds, uses)
      ensures !ok ==> Kept(before, host.maps) && Kept(old(host.programs), host.programs)
      ensures !ok ==> Kept(host.maps, before + added)
                      && Kept(host.programs, old(host.programs) + NewPrograms(names, f.programIds, uses))
      ensures !ok && UnpinningWorks(f) ==> host.maps == before && host.programs == old(host.programs)
      ensures !old(host.FastPathOn()) ==> !host.FastPathOn() && MadeWhileOff(old(host.log), host.log)
    {
      ok := PinPrograms(loaded, names, uses, f);
      if !ok {
        TakingBack(old(host.programs), NewPrograms(loaded.ownedPrograms, f.programIds, uses), f.unpinFails);
        TakingBack(before, added, f.unpinMapFails);
        var _ := loaded.Unpin(f);
      }
    }

    /** `Manager.LoadAndPin`: either every program is pinned, or, wherever and in whatever
        order pinning failed, everything pinned before is still there, and if unpinning
        works the pins are exactly those from before, and what a failing kernel load left. */
    method LoadAndPin(spec: Collection, schema: Collection, f: LoadFaults) returns (loaded: LoadedCollection?)
      modifies host`maps, host`programs, host`control, host`log
      ensures loaded != null <==>
              ReachesLoad(spec, schema, old(host.View()), f) && !f.load && spec.programs !! f.pinFails
      ensures loaded != null ==>
                && fresh(loaded) && loaded.host == host
                && loaded.ownedPrograms == schema.programs && loaded.ownedMaps == schema.maps.Keys - old(host.maps).Keys
                && host.View() == AfterLoad(old(host.View()), schema, f.programIds, f.mapIds)
                && host.control == (if ControlMap in loaded.ownedMaps then ZERO_CONTROL else old(host.control))
                && (!old(host.FastPathOn()) ==> !host.FastPathOn() && MadeWhileOff(old(host.log), host.log))
      ensures loaded == null ==> PinFailed(spec, schema, f, old(host.Now()), host.Now())
    {
      ghost var a := host.Now();
      if (spec != schema || f.inspect || !Conforms(host.maps, schema) || f.directories
          || !(spec.programs !! host.programs.Keys)) {
        NothingPinned(spec, schema, f, a);
        return null;
      }
      if f.load {
        var _ := PinMissingMaps(f.strays * schema.maps.Keys, schema, f);
        StraysPinned(spec, schema, f, a, host.Now());
        return null;
      }
      loaded := PinLoaded(schema, f);
    }

    /** What follows a kernel load that succeeds. */
    method PinLoaded(schema: Collection, f: LoadFaults) returns (loaded: LoadedCollection?)
      requires ReachesLoad(schema, schema, host.View(), f) && !f.load
      modifies host`maps, host`programs, host`control, host`log
      ensures loaded != null <==> schema.programs !! f.pinFails
      ensures loaded != null ==>
                && fresh(loaded) && loaded.host == host
                && loaded.ownedPrograms == schema.programs && loaded.ownedMaps == schema.maps.Keys - old(host.maps).Keys
                && host.View() == AfterLoad(old(host.View()), schema, f.programIds, f.mapIds)
                && host.control == (if ControlMap in loaded.ownedMaps then ZERO_CONTROL else old(host.control))
                && (!old(host.FastPathOn()) ==> !host.FastPathOn() && MadeWhileOff(old(host.log), host.log))
      ensures loaded == null ==> PinFailed(schema, schema, f, old(host.Now()), host.Now())
    {
      ghost var a := host.Now();
      loaded := new LoadedCollection(host);
      loaded.ownedMaps := PinMissingMaps(schema.maps.Keys, schema, f);
      var uses := IdsOf(host.maps, schema.maps.Keys);
      var ok := PinOrTakeBack(loaded, schema.programs, uses, f,
                              a.pins.maps, NewMaps(loaded.ownedMaps, schema, f.mapIds));
      if !ok {
        TakenBack(schema, schema, f, a, host.Now());
        return null;
      }
    }
  }

  /** `collectionReady`. */
  predicate CollectionReady(actual: ActualState) {
    && |actual.programs| == |REQUIRED_PROGRAMS| && |actual.maps| == |SCHEMA|
    && (forall name :: name in REQUIRED_PROGRAMS ==> name in actual.programs && actual.programs[name].id != 0)
    && (forall name :: name in SCHEMA ==> MapVerified(actual.maps, name))
  }

  lemma SameSize<T>(a: set<T>, b: set<T>)
    requires a <= b
    ensures |a| == |b| <==> a == b
  {
    assert b == a + (b - a);
  }

  /** A ready collection: exactly the expected programs and maps, each with an ID, and the
      maps with their sizes. The kernel's names of the programs do not count. */
  lemma ReadyMeans(actual: ActualState)
    ensures CollectionReady(actual) <==>
            && actual.programs.Keys == {TcInitE, TcRestore, TcMasq, TcInitIn}
            && actual.maps.Keys == {EgressIpCache, EgressCache, IngressCache, PolicyCache, Devmap, ControlMap,
                                    PolicyLockMap, StatsMap}
            && (forall name :: name in actual.programs ==> actual.programs[name].id != 0)
            && (forall name :: name in SCHEMA ==> MapVerified(actual.maps, name))
  {
    assert REQUIRED_PROGRAMS == {TcInitE, TcRestore, TcMasq, TcInitIn};
    assert SCHEMA.Keys == {EgressIpCache, EgressCache, IngressCache, PolicyCache, Devmap, ControlMap, PolicyLockMap,
                           StatsMap};
    assert |actual.programs| == |actual.programs.Keys| && |actual.maps| == |actual.maps.Keys|
           && |SCHEMA| == |SCHEMA.Keys|;
    if CollectionReady(actual) {
      forall name | name in SCHEMA.Keys
        ensures name in actual.maps.Keys
      {
        assert MapVerified(actual.maps, name);
      }
    }
    if REQUIRED_PROGRAMS <= actual.programs.Keys && SCHEMA.Keys <= actual.maps.Keys {
      SameSize(REQUIRED_PROGRAMS, actual.programs.Keys);
      SameSize(SCHEMA.Keys, actual.maps.Keys);
    }
  }

  /** Scans report expected names only, so a verified collection is a ready one. */
  lemma VerifiedIsReady(pins: Pins, links: seq<Link>)
    requires CollectionVerified(ScanOf(pins, links))
    ensures CollectionReady(ScanOf(pins, links))
  {
    var actual := ScanOf(pins, links);
    assert actual.programs.Keys == REQUIRED_PROGRAMS;
    assert actual.maps.Keys == SCHEMA.Keys;
    assert |actual.programs| == |actual.programs.Keys| && |actual.maps| == |actual.maps.Keys|
           && |SCHEMA| == |SCHEMA.Keys|;
  }

  /** The collection can be loaded beside the pins that are there. */
  predicate CanLoad(elf: Collection, pins: Pins, control: Control) {
    && elf == V1_SCHEMA && Conforms(pins.maps, V1_SCHEMA) && V1_SCHEMA.programs !! pins.programs.Keys
    && (ControlMap in pins.maps ==> control.abiVersion == 0 || control.abiVersion == ABI_VERSION)
  }

  class CollectionEnsurer {
    const host: Host
    const manager: Manager
    const writer: Writer
    const elf: Collection

    constructor (host: Host, elf: Collection)
      ensures this.host == host && manager.host == host && writer.host == host && this.elf == elf
    {
      this.host := host;
      manager := new Manager(host);
      writer := new Writer(host);
      this.elf := elf;
    }

    predicate Valid() {
      manager.host == host && writer.host == host
    }

    /** `EnsureCollection`: a ready collection is left alone, another one is loaded. */
    method EnsureCollection(desired: DesiredState, actual: ActualState, f: LoadFaults) returns (changed: bool, ok: bool)
      requires Valid()
      modifies host`maps, host`programs, host`control, host`log
      ensures !desired.enabled || CollectionReady(actual) ==>
                !changed && (ok <==> !f.cancelled) && host.Now() == old(host.Now())
      ensures desired.enabled && !CollectionReady(actual) ==>
                LoadOutcome(elf, V1_SCHEMA, f, old(host.Now()), host.Now(), ok) && changed == ok
    {
      if f.cancelled {
        NothingLoaded(elf, V1_SCHEMA, f, host.Now());
        return false, false;
      }
      if !desired.enabled {
        return false, true;
      }
      if CollectionReady(actual) {
        return false, true;
      }
      if f.read {
        NothingLoaded(elf, V1_SCHEMA, f, host.Now());
        return false, false;
      }
      changed, ok := Load(V1_SCHEMA, f);
    }

    /** Load, pin, initialize the control map, close. */
    method Load(schema: Collection, f: LoadFaults) returns (changed: bool, ok: bool)
      requires Valid() && !f.cancelled && !f.read && ControlMap in schema.maps
      modifies host`maps, host`programs, host`control, host`log
      ensures LoadOutcome(elf, schema, f, old(host.Now()), host.Now(), ok)
      ensures changed <==> ok
    {
      ghost var a := host.Now();
      var loaded := manager.LoadAndPin(elf, schema, f);
      if loaded == null {
        NotPinned(elf, schema, f, a, host.Now());
        return false, false;
      }
      ghost var m := host.Now();
      ok := InitializeOrTakeBack(loaded, f, a.pins,
                                 NewPrograms(loaded.ownedPrograms, f.programIds,
                                             MapsInUse(a.pins.maps, schema, f.mapIds)),
                                 NewMaps(loaded.ownedMaps, schema, f.mapIds));
      Initialized(elf, schema, f, a, m, host.Now(), ok);
      ok := ok && !f.close;
      changed := ok;
    }

    /** The control map of a loaded collection is initialized, or its pins are taken back. The
        programs and maps in `programs` and `maps` were pinned for it. */
    method InitializeOrTakeBack(loaded: LoadedCollection, f: LoadFaults, ghost before: Pins,
                                ghost programs: PinnedPrograms, ghost maps: PinnedMaps)
      returns (ok: bool)
      requires Valid() && loaded.host == host
      requires loaded.ownedPrograms == programs.Keys && programs.Keys !! before.programs.Keys
      requires loaded.ownedMaps == maps.Keys && maps.Keys !! before.maps.Keys
      requires host.View() == before.(programs := before.programs + programs, maps := before.maps + maps)
      modifies host`maps, host`programs, host`control, host`log
      ensures ok <==> Accessible(old(host.maps), f.control)
                      && (old(host.control).abiVersion == 0 || old(host.control).abiVersion == ABI_VERSION)
      ensures ok ==> host.View() == old(host.View()) && host.control == ZERO_CONTROL.(abiVersion := ABI_VERSION)
      ensures Kept(before.maps, host.maps) && Kept(before.programs, host.programs)
      ensures Kept(host.maps, before.maps + maps) && Kept(host.programs, before.programs + programs)
      ensures !ok && UnpinningWorks(f) ==> host.View() == before
      ensures !old(host.FastPathOn()) ==> !host.FastPathOn() && MadeWhileOff(old(host.log), host.log)
    {
      ok := writer.Initialize(f.control);
      if !ok {
        TakingBack(before.programs, programs, f.unpinFails);
        TakingBack(before.maps, maps, f.unpinMapFails);
        var _ := loaded.Unpin(f);
      }
    }
  }
}
