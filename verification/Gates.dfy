/** Whose gate a control write shuts: that of the programs that were loaded with the pinned
    control map. A program keeps the map it was loaded with, pinned or not. */
module Gates {
  import opened Wrappers
  import opened Caches
  import opened Kernel
  import opened ControlWriter
  import opened Reconciler
  import opened Histories

  /** What lies beneath the pins: the control map each program was loaded with, and the value
      of each control map, by kernel IDs. */
  datatype Beneath = Beneath(readBy: map<nat, nat>, values: map<nat, Control>)

  ghost predicate Agrees(k: Beneath, h: HostState) {
    && (ControlMap in h.pins.maps ==>
          h.pins.maps[ControlMap].id in k.values && k.values[h.pins.maps[ControlMap].id] == h.control)
    && forall p :: p in h.pins.programs && ControlMap in h.pins.programs[p].maps ==>
         && h.pins.programs[p].id in k.readBy
         && k.readBy[h.pins.programs[p].id] == h.pins.programs[p].maps[ControlMap]
  }

  /** The control map as the program of an attached filter sees it. */
  function GateOf(k: Beneath, f: Filter): Option<Control> {
    if f.programId in k.readBy && k.readBy[f.programId] in k.values then Some(k.values[k.readBy[f.programId]])
    else None
  }

  predicate ReadsThePin(k: Beneath, h: HostState, f: Filter) {
    && ControlMap in h.pins.maps && f.programId in k.readBy
    && k.readBy[f.programId] == h.pins.maps[ControlMap].id
  }

  /** The agent writes the pinned map only. */
  function AfterWrite(k: Beneath, h: HostState): Beneath {
    if ControlMap in h.pins.maps then k.(values := k.values[h.pins.maps[ControlMap].id := h.control]) else k
  }

  ghost predicate ShutAlways(gate: Option<Control>) {
    forall now: u64 :: !Allows(gate, now)
  }

  lemma PinnedGate(k: Beneath, h: HostState, f: Filter)
    requires Agrees(k, h) && ReadsThePin(k, h, f)
    ensures GateOf(k, f) == h.Gate()
  {
  }

  /** A completed disable shuts the gate of an attached program exactly if the program was
      loaded with the pinned control map, or its gate was shut for good already. */
  lemma DisableShutsExactly(a: HostState, b: HostState, run: Run, k: Beneath, f: Filter)
    requires Agrees(k, a) && Shut(a, b, run)
    ensures ShutAlways(GateOf(AfterWrite(k, b), f)) <==> ReadsThePin(k, a, f) || ShutAlways(GateOf(k, f))
  {
    if ReadsThePin(k, a, f) {
      forall now: u64
        ensures !Allows(GateOf(AfterWrite(k, b), f), now)
      {
        OffMeansShut(b, now);
      }
    }
  }

  /** On a host that had no program of the collection pinned at first, the gate of every
      filter that was attached since is that of the pinned map, so a completed disable shuts
      them all. */
  lemma DisableShutsTheAgentsFilters(states: seq<HostState>, entries: seq<Entry>, key: LinkKey, f: Filter,
                                     b: HostState, run: Run, k: Beneath)
    requires History(states, entries) && REQUIRED_PROGRAMS !! states[0].pins.programs.Keys
    requires f in At(states[|entries|].pins.filters, key) && f !in At(states[0].pins.filters, key)
    requires Agrees(k, states[|entries|]) && Shut(states[|entries|], b, run)
    ensures ReadsThePin(k, states[|entries|], f) && GateOf(k, f) == states[|entries|].Gate()
    ensures ShutAlways(GateOf(AfterWrite(k, b), f))
  {
    var h := states[|entries|];
    AttachedUseThePinnedMaps(states, entries, key, f);
    assert ControlMap in SCHEMA && ControlMap in h.pins.programs[f.program].maps;
    PinnedGate(k, h, f);
    DisableShutsExactly(h, b, run, k, f);
  }

  // ---- Lost pins ----

  const LOST_FILTER := Filter(HookIngress, TcMasq, 5, 1000, 0x200, true)

  const LOST_MAP := Beneath(map[5 := 7], map[7 := Control(ABI_VERSION, 1, 1, 100, 100, 0)])

  function LostHost(key: LinkKey): HostState {
    HostState(Pins(map[], map[], map[key := [LOST_FILTER]], true), ZERO_CONTROL, None, [], [])
  }

  /** That the program reads the pinned map is needed. Once the pins are gone, a disable
      completes without a write, and the filter that is still attached lets packets through
      the fast path until its heartbeat runs out. */
  lemma LostPinsStayOn(key: LinkKey, run: Run)
    requires run.disable == NO_CONTROL_FAULTS
    ensures var h := LostHost(key);
            && Agrees(LOST_MAP, h) && LOST_FILTER in At(h.pins.filters, key) && Shut(h, h, run)
            && Allows(GateOf(AfterWrite(LOST_MAP, h), LOST_FILTER), 150)
            && !Allows(GateOf(AfterWrite(LOST_MAP, h), LOST_FILTER), 201)
  {
    assert LOST_FILTER in [LOST_FILTER];
  }
}
