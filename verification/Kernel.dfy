/** The kernel objects the agent manages, and the state its passes exchange. */
module Kernel {
  import opened Bytes
  import opened Wrappers
  import opened Caches

  datatype ProgramName = TcInitE | TcRestore | TcInitIn | TcMasq | OtherProgram(name: string)

  datatype MapName =
    | IngressCache | EgressIpCache | EgressCache | PolicyCache | Devmap | ControlMap | PolicyLockMap | StatsMap
    | OtherMap(name: string)

  datatype Hook = HookIngress | HookEgress

  /** A network interface, with the namespace path needed to reach it. */
  datatype Link = Link(netns: nat, ifindex: int, name: string, mac: Frame, path: string)

  datatype LinkKey = LinkKey(netns: nat, ifindex: int)

  function Key(link: Link): LinkKey {
    LinkKey(link.netns, link.ifindex)
  }

  /** Two links are one interface if namespace and index agree, whatever their name, MAC and
      path. */
  lemma KeyIsIdentity(a: Link, b: Link)
    ensures Key(a) == Key(b) <==> a.netns == b.netns && a.ifindex == b.ifindex
  {
  }

  /** A TC filter as the kernel keeps it on one interface. */
  datatype Filter = Filter(hook: Hook, program: ProgramName, programId: nat, priority: nat, handle: nat,
                           directAction: bool)

  datatype FilterSpec = FilterSpec(link: Link, filter: Filter)

  datatype MapType = LruHash | Array | PerCpuArray

  datatype MapDescriptor = MapDescriptor(mapType: MapType, keySize: nat, valueSize: nat, maxEntries: nat, flags: nat)

  datatype PinnedMap = PinnedMap(id: nat, descriptor: MapDescriptor, entries: map<Frame, Frame>)

  /** The kernel's name of a pinned program may be empty. `maps` are the maps it was loaded
      with, by ID; it uses them whatever becomes of their pins. Scans do not report them. */
  datatype ProgramState = ProgramState(id: nat, name: Option<ProgramName>, maps: map<MapName, nat>)

  datatype MapState = MapState(id: nat, keySize: nat, valueSize: nat, maxEntries: nat)

  datatype Attachment = Attachment(link: Link, hook: Hook, program: ProgramName, programId: nat, priority: nat,
                                   handle: nat)

  type Ipv4 = a: Frame | |a| == 4 witness [0, 0, 0, 0]

  /** A local pod. An address that is missing or not IPv4 is None. */
  datatype Endpoint = Endpoint(uid: string, node: string, podIp: Option<Ipv4>, netns: nat, peer: Link, host: Link)

  datatype DesiredState = DesiredState(generation: u64, enabled: bool, markerSupported: bool,
                                       underlay: Link, underlayIp: Option<Ipv4>, endpoints: map<string, Endpoint>)

  datatype ActualState = ActualState(controlEnabled: bool, programs: PinnedPrograms, maps: map<MapName, MapState>,
                                     attachments: seq<Attachment>, conflicts: nat, marker: bool)

  datatype OwnedEndpoint = OwnedEndpoint(uid: string, podIp: Option<Ipv4>, netns: nat, peerIfindex: int,
                                         hostIfindex: int)

  /** The committed record of what the agent owns. */
  datatype Ownership = Ownership(generation: u64, programs: PinnedPrograms, maps: map<MapName, MapState>,
                                 attachments: seq<Attachment>, endpoints: map<string, OwnedEndpoint>)

  /** The collection the agent expects: program names and map schemas. */
  const REQUIRED_PROGRAMS: set<ProgramName> := {TcInitE, TcRestore, TcInitIn, TcMasq}

  const SCHEMA: map<MapName, MapDescriptor> := map[
    EgressIpCache := MapDescriptor(LruHash, 4, 4, 4096, 0),
    EgressCache := MapDescriptor(LruHash, 4, 68, 1024, 0),
    IngressCache := MapDescriptor(LruHash, 4, 16, 1024, 0),
    PolicyCache := MapDescriptor(LruHash, 16, 4, 4096, 0),
    Devmap := MapDescriptor(LruHash, 4, 12, 8, 0),
    ControlMap := MapDescriptor(Array, 4, 40, 1, 0),
    PolicyLockMap := MapDescriptor(Array, 4, 4, 1, 0),
    StatsMap := MapDescriptor(PerCpuArray, 4, 8, 14, 0)]

  /** The IDs the kernel gives to programs and maps when they are loaded. */
  datatype KernelIds = KernelIds(programs: map<ProgramName, nat>, maps: map<MapName, nat>)

  const ZERO_CONTROL := Control(0, 0, 0, 0, 0, 0)

  type PinnedMaps = map<MapName, PinnedMap>

  type PinnedPrograms = map<ProgramName, ProgramState>

  /** The filters of every interface, in list order. */
  type FilterLists = map<LinkKey, seq<Filter>>

  /** What the scans read. */
  datatype Pins = Pins(maps: PinnedMaps, programs: PinnedPrograms,
                       filters: FilterLists, marker: bool)

  function At(filters: FilterLists, key: LinkKey): seq<Filter> {
    if key in filters then filters[key] else []
  }

  function FiltersAt(filters: FilterLists, link: Link): seq<Filter> {
    At(filters, Key(link))
  }

  function InsertAt<T>(s: seq<T>, i: nat, x: T): (r: seq<T>)
    requires i <= |s|
    ensures |r| == |s| + 1
    ensures multiset(r) == multiset(s) + multiset{x}
  {
    assert s == s[..i] + s[i..];
    s[..i] + [x] + s[i..]
  }

  /** A change the agent makes to a kernel object, with the state of the fast path then. */
  datatype Change = Change(what: Changed, fastPathOn: bool)

  /** The changes since `before` were all made with the fast path off. */
  ghost predicate MadeWhileOff(before: seq<Change>, after: seq<Change>) {
    && before <= after
    && forall i :: |before| <= i < |after| ==> !after[i].fastPathOn
  }

  datatype Changed = FilterChanged | ProgramPinChanged | MapPinChanged | EntryWritten | MarkerAdded

  /** A host at one moment. */
  datatype HostState = HostState(pins: Pins, control: Control, ownership: Option<Ownership>,
                                 published: seq<Control>, log: seq<Change>)
  {
    /** The fast path is on, as far as the pinned control map says. */
    predicate On() {
      ControlMap in pins.maps && control.enabled == 1
    }

    /** The control map as those packet programs see it that were loaded with the pinned one. */
    function Gate(): Option<Control> {
      if ControlMap in pins.maps then Some(control) else None
    }
  }

  /** The host. `control` is the value of the pinned control map. The log of the changes to
      kernel objects and the values published so far are history only. */
  class Host {
    var maps: PinnedMaps
    var programs: PinnedPrograms
    var filters: FilterLists
    var marker: bool
    var control: Control
    var ownership: Option<Ownership>
    ghost var published: seq<Control>
    ghost var log: seq<Change>

    function View(): Pins
      reads this
    {
      Pins(maps, programs, filters, marker)
    }

    ghost function Now(): HostState
      reads this
    {
      HostState(View(), control, ownership, published, log)
    }

    predicate FastPathOn()
      reads this`maps, this`control
    {
      ControlMap in maps && control.enabled == 1
    }

    method PinProgram(name: ProgramName, state: ProgramState)
      modifies this`programs, this`log
      ensures programs == old(programs)[name := state]
      ensures log == old(log) + [Change(ProgramPinChanged, FastPathOn())]
    {
      programs := programs[name := state];
      log := log + [Change(ProgramPinChanged, FastPathOn())];
    }

    method UnpinProgram(name: ProgramName)
      modifies this`programs, this`log
      ensures programs == old(programs) - {name}
      ensures log == old(log) + [Change(ProgramPinChanged, FastPathOn())]
    {
      programs := programs - {name};
      log := log + [Change(ProgramPinChanged, FastPathOn())];
    }

    /** A new, empty map; a new control map holds zeroes. */
    method PinMap(name: MapName, fresh_: PinnedMap)
      requires name !in maps
      modifies this`maps, this`control, this`log
      ensures maps == old(maps)[name := fresh_]
      ensures control == if name == ControlMap then ZERO_CONTROL else old(control)
      ensures log == old(log) + [Change(MapPinChanged, FastPathOn())]
    {
      maps := maps[name := fresh_];
      if name == ControlMap {
        control := ZERO_CONTROL;
      }
      log := log + [Change(MapPinChanged, FastPathOn())];
    }

    method UnpinMap(name: MapName)
      modifies this`maps, this`log
      ensures maps == old(maps) - {name}
      ensures log == old(log) + [Change(MapPinChanged, FastPathOn())]
    {
      maps := maps - {name};
      log := log + [Change(MapPinChanged, FastPathOn())];
    }

    /** The netlink call behind AttachFilter; the kernel chooses the place in the list. */
    method AddFilter(link: Link, position: nat, filter: Filter)
      modifies this`filters, this`log
      ensures var list := FiltersAt(old(filters), link);
              filters == old(filters)[Key(link) := InsertAt(list, position % (|list| + 1), filter)]
      ensures log == old(log) + [Change(FilterChanged, FastPathOn())]
    {
      var list := FiltersAt(filters, link);
      filters := filters[Key(link) := InsertAt(list, position % (|list| + 1), filter)];
      log := log + [Change(FilterChanged, FastPathOn())];
    }

    method DeleteFilter(link: Link, index: nat)
      requires index < |FiltersAt(filters, link)|
      modifies this`filters, this`log
      ensures var list := FiltersAt(old(filters), link);
              filters == old(filters)[Key(link) := list[..index] + list[index + 1..]]
      ensures log == old(log) + [Change(FilterChanged, FastPathOn())]
    {
      var list := FiltersAt(filters, link);
      filters := filters[Key(link) := list[..index] + list[index + 1..]];
      log := log + [Change(FilterChanged, FastPathOn())];
    }

    method AddMarker()
      modifies this`marker, this`log
      ensures marker
      ensures log == old(log) + [Change(MarkerAdded, FastPathOn())]
    {
      marker := true;
      log := log + [Change(MarkerAdded, FastPathOn())];
    }

    /** The write to the control map that switches the fast path on. */
    method EnableFastPath(value: Control)
      requires value.enabled == 1
      modifies this`control, this`published
      ensures control == value && published == old(published) + [value]
    {
      control := value;
      published := published + [value];
    }

    method PutEntry(name: MapName, key: Frame, value: Frame)
      requires name in maps
      modifies this`maps, this`log
      ensures maps == old(maps)[name := old(maps)[name].(entries := old(maps)[name].entries[key := value])]
      ensures log == old(log) + [Change(EntryWritten, FastPathOn())]
    {
      maps := maps[name := maps[name].(entries := maps[name].entries[key := value])];
      log := log + [Change(EntryWritten, FastPathOn())];
    }
  }
}
