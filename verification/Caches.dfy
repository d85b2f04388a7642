/** The maps the four packet programs share, and the control gate in front of them. */
module Caches {
  import opened Bytes
  import opened Wrappers
  import opened Headers

  type u32 = n: int | 0 <= n < 0x1_0000_0000
  type u64 = n: int | 0 <= n < 0x1_0000_0000_0000_0000

  type Mac = m: Frame | |m| == 6 witness [0, 0, 0, 0, 0, 0]

  type Header = h: Frame | |h| == OUTER_LEN witness seq(64, _ => 0)

  /** Outer header and output interface learned for a node address. */
  datatype Egress = Egress(header: Header, ifindex: u32)

  /** Host-side interface and MACs of a local pod; the MACs are rewritten by `tc_init_in`. */
  datatype Ingress = Ingress(ifindex: u32, dstMac: Mac, srcMac: Mac)

  datatype Device = Device(ipv4: u32, mac: Mac)

  /** The two ready bits of a flow. */
  datatype Ready = Ready(ingress: bool, egress: bool)

  const ABI_VERSION: u32 := 1

  datatype Control = Control(abiVersion: u32, enabled: u32, generation: u64,
                             heartbeat: u64, timeout: u64, flags: u32)

  /** One snapshot of every map. `control` is absent until the collection is pinned. */
  datatype Maps = Maps(ingress: map<u32, Ingress>, egressip: map<u32, u32>, egress: map<u32, Egress>,
                       policy: map<Flow, Ready>, dev: map<u32, Device>, control: Option<Control>)

  /** Unsigned 64-bit subtraction, wrapping as in C. */
  function Sub64(a: u64, b: u64): u64 {
    (a - b) % 0x1_0000_0000_0000_0000
  }

  /** `oncache_control_allows`, branch by branch. */
  predicate Allows(control: Option<Control>, now: u64) {
    && control.Some?
    && var c := control.value;
    && c.abiVersion == ABI_VERSION
    && c.enabled == 1
    && c.flags % 2 != 1
    && c.timeout != 0
    && !(now < c.heartbeat)
    && !(Sub64(now, c.heartbeat) > c.timeout)
  }

  /** The gate opens only inside the heartbeat window, over the integers: the 64-bit
      subtraction never wraps and no addition can overflow. */
  lemma GateIsTheHeartbeatWindow(c: Control, now: u64)
    ensures !Allows(None, now)
    ensures Allows(Some(c), now) <==>
            && c.abiVersion == 1 && c.enabled == 1 && c.flags % 2 == 0 && c.timeout > 0
            && c.heartbeat as int <= now as int <= c.heartbeat as int + c.timeout as int
  {
    if now >= c.heartbeat {
      assert Sub64(now, c.heartbeat) as int == now as int - c.heartbeat as int;
    }
  }

  predicate TargetValid(target: u32, current: u32) {
    target != 0 && target != current
  }
}
