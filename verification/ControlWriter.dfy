/** Read-modify-write of the one control value. */
module ControlWriter {
  import opened Caches
  import opened Kernel

  datatype ControlFaults = ControlFaults(cancelled: bool, stat: bool, open: bool, lookup: bool, update: bool)

  const NO_CONTROL_FAULTS := ControlFaults(false, false, false, false, false)

  /** The pinned map can be opened, read and written. */
  predicate Accessible(maps: PinnedMaps, f: ControlFaults) {
    !f.cancelled && ControlMap in maps && !f.open && !f.lookup && !f.update
  }

  class Writer {
    const host: Host

    constructor (host: Host)
      ensures this.host == host
    {
      this.host := host;
    }

    /** `ControlWriter.Disable`: only the enabled word changes. */
    method Disable(f: ControlFaults) returns (ok: bool)
      modifies host`control
      ensures ok <==> Accessible(host.maps, f) && old(host.control).abiVersion == ABI_VERSION
      ensures ok ==> ControlMap in host.maps && !f.cancelled && !f.open && !f.lookup && !f.update
      ensures host.control == if ok then old(host.control).(enabled := 0) else old(host.control)
    {
      if f.cancelled {
        return false;
      }
      if ControlMap !in host.maps || f.open || f.lookup {
        return false;
      }
      var value := host.control;
      if value.abiVersion != ABI_VERSION {
        return false;
      }
      value := value.(enabled := 0);
      if f.update {
        return false;
      }
      host.control := value;
      return true;
    }

    /** `runtimeControl.Disable`: with no control map pinned there is nothing to disable. */
    method DisableIfPinned(f: ControlFaults) returns (ok: bool)
      modifies host`control
      ensures ok <==> !f.stat && (ControlMap in host.maps ==>
                                    Accessible(host.maps, f) && old(host.control).abiVersion == ABI_VERSION)
      ensures host.control == if ok && ControlMap in host.maps then old(host.control).(enabled := 0)
                              else old(host.control)
      ensures ok ==> !host.FastPathOn()
    {
      if f.stat {
        return false;
      }
      if ControlMap !in host.maps {
        return true;
      }
      ok := Disable(f);
    }

    /** `ControlWriter.Initialize`: a fresh or compatible value becomes a disabled one. */
    method Initialize(f: ControlFaults) returns (ok: bool)
      modifies host`control
      ensures ok <==> Accessible(host.maps, f)
                      && (old(host.control).abiVersion == 0 || old(host.control).abiVersion == ABI_VERSION)
      ensures ok ==> ControlMap in host.maps && !f.cancelled && !f.open && !f.lookup && !f.update
      ensures host.control == if ok then ZERO_CONTROL.(abiVersion := ABI_VERSION) else old(host.control)
    {
      if f.cancelled {
        return false;
      }
      if ControlMap !in host.maps || f.open || f.lookup {
        return false;
      }
      if host.control.abiVersion != 0 && host.control.abiVersion != ABI_VERSION {
        return false;
      }
      if f.update {
        return false;
      }
      host.control := ZERO_CONTROL.(abiVersion := ABI_VERSION);
      return true;
    }

    /** `ControlWriter.Publish`. */
    method Publish(generation: u64, heartbeat: u64, timeout: u64, flags: u32, f: ControlFaults) returns (ok: bool)
      modifies host`control, host`published
      ensures ok <==> heartbeat != 0 && timeout != 0 && Accessible(host.maps, f)
                      && old(host.control).abiVersion == ABI_VERSION
      ensures ok ==> ControlMap in host.maps && !f.cancelled && !f.open && !f.lookup && !f.update
      ensures host.control == if ok then Control(ABI_VERSION, 1, generation, heartbeat, timeout, flags)
                              else old(host.control)
      ensures host.published == old(host.published) + if ok then [host.control] else []
    {
      if f.cancelled {
        return false;
      }
      if heartbeat == 0 || timeout == 0 {
        return false;
      }
      if ControlMap !in host.maps || f.open || f.lookup {
        return false;
      }
      var value := host.control;
      if value.abiVersion != ABI_VERSION {
        return false;
      }
      value := Control(value.abiVersion, 1, generation, heartbeat, timeout, flags);
      if f.update {
        return false;
      }
      host.EnableFastPath(value);
      return true;
    }
  }

  /** A host whose fast path is off shows a shut gate to every program that was loaded with
      the pinned control map. */
  lemma OffMeansShut(h: HostState, now: u64)
    requires !h.On()
    ensures !Allows(h.Gate(), now)
  {
  }
}
