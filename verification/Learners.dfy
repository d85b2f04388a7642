/** Concurrent learners on one flow entry. Each learner runs insert-if-absent, then lookup,
    lock, set, unlock; the scheduler interleaves any number of them, one helper call or
    store at a time, with evictions of the entry.

    The pointer a lookup returns stays valid after an eviction, so an entry carries the
    number of its insertion and a write through a stale pointer is lost. */
module Learners {
  import opened Wrappers
  import opened Headers
  import opened Caches
  import opened Programs

  type Tid = nat

  datatype Entry = Entry(id: nat, ready: Ready)

  datatype Pc =
    | Inserting              // about to call bpf_map_update_elem with BPF_NOEXIST
    | LookingUp              // the update failed
    | Unlocked(id: nat)      // holds a pointer to insertion `id`
    | Locked(id: nat)        // inside the critical section, bit not yet stored
    | Stored(id: nat)        // inside the critical section, bit stored
    | Done(taught: Option<nat>)  // finished; None is a counted lookup miss

  datatype State = State(entry: Option<Entry>, inserted: nat, lock: Option<Tid>,
                         sides: map<Tid, Side>, pcs: map<Tid, Pc>)

  datatype Move =
    | Insert(t: Tid, ok: bool) | Lookup(t: Tid) | Lock(t: Tid) | Store(t: Tid) | Unlock(t: Tid) | Evict

  predicate Start(s: State) {
    && s.entry.None? && s.inserted == 0 && s.lock.None?
    && s.sides.Keys == s.pcs.Keys
    && forall t :: t in s.pcs ==> s.pcs[t] == Inserting
  }

  predicate Enabled(s: State, m: Move) {
    match m
    case Insert(t, _) => t in s.pcs && t in s.sides && s.pcs[t].Inserting?
    case Lookup(t) => t in s.pcs && s.pcs[t].LookingUp?
    case Lock(t) => t in s.pcs && s.pcs[t].Unlocked? && s.lock.None?
    case Store(t) => t in s.pcs && t in s.sides && s.pcs[t].Locked?
    case Unlock(t) => t in s.pcs && s.pcs[t].Stored?
    case Evict => true
  }

  function Do(s: State, m: Move): State
    requires Enabled(s, m)
  {
    match m
    case Insert(t, ok) =>
      if s.entry.None? && ok then
        s.(entry := Some(Entry(s.inserted, WithBit(Ready(false, false), s.sides[t]))), inserted := s.inserted + 1,
           pcs := s.pcs[t := Done(Some(s.inserted))])
      else s.(pcs := s.pcs[t := LookingUp])
    case Lookup(t) =>
      s.(pcs := s.pcs[t := if s.entry.Some? then Unlocked(s.entry.value.id) else Done(None)])
    case Lock(t) => s.(lock := Some(t), pcs := s.pcs[t := Locked(s.pcs[t].id)])
    case Store(t) =>
      s.(entry := if s.entry.Some? && s.entry.value.id == s.pcs[t].id
                  then Some(Entry(s.entry.value.id, WithBit(s.entry.value.ready, s.sides[t])))
                  else s.entry,
         pcs := s.pcs[t := Stored(s.pcs[t].id)])
    case Unlock(t) => s.(lock := None, pcs := s.pcs[t := Done(Some(s.pcs[t].id))])
    case Evict => s.(entry := None)
  }

  ghost predicate Possible(s: State, moves: seq<Move>)
    decreases |moves|
  {
    moves == [] || (Enabled(s, moves[0]) && Possible(Do(s, moves[0]), moves[1..]))
  }

  ghost function Run(s: State, moves: seq<Move>): State
    requires Possible(s, moves)
    decreases |moves|
  {
    if moves == [] then s else Run(Do(s, moves[0]), moves[1..])
  }

  /** The insertion a learner has written its bit into, if it got that far. */
  function Taught(pc: Pc): Option<nat> {
    match pc
    case Stored(id) => Some(id)
    case Done(taught) => taught
    case _ => None
  }

  function Pointer(pc: Pc): Option<nat> {
    match pc
    case Unlocked(id) => Some(id)
    case Locked(id) => Some(id)
    case _ => Taught(pc)
  }

  predicate HasBit(r: Ready, side: Side) {
    if side.EgressSide? then r.egress else r.ingress
  }

  predicate InCriticalSection(pc: Pc) {
    pc.Locked? || pc.Stored?
  }

  /** Mutual exclusion, no pointer to a future insertion, and no lost bit. */
  ghost predicate Inv(s: State) {
    && s.sides.Keys == s.pcs.Keys
    && (forall t :: t in s.pcs ==> (InCriticalSection(s.pcs[t]) <==> s.lock == Some(t)))
    && (s.lock.Some? ==> s.lock.value in s.pcs)
    && (s.entry.Some? ==> s.entry.value.id < s.inserted)
    && (forall t :: t in s.pcs && Pointer(s.pcs[t]).Some? ==> Pointer(s.pcs[t]).value < s.inserted)
    && (forall t :: t in s.pcs && s.entry.Some? && Taught(s.pcs[t]) == Some(s.entry.value.id)
          ==> HasBit(s.entry.value.ready, s.sides[t]))
  }

  lemma StartInv(s: State)
    requires Start(s)
    ensures Inv(s)
  {
  }

  lemma StepInv(s: State, m: Move)
    requires Inv(s) && Enabled(s, m)
    ensures Inv(Do(s, m))
  {
    match m
    case Insert(t, ok) => InsertInv(s, t, ok);
    case Lookup(_) =>
    case Lock(t) => LockInv(s, t);
    case Store(t) => StoreInv(s, t);
    case Unlock(t) => UnlockInv(s, t);
    case Evict =>
  }

  lemma InsertInv(s: State, t: Tid, ok: bool)
    requires Inv(s) && Enabled(s, Insert(t, ok))
    ensures Inv(Do(s, Insert(t, ok)))
  {
    var s' := Do(s, Insert(t, ok));
    forall u | u in s'.pcs && u != t
      ensures s'.pcs[u] == s.pcs[u]
    {
    }
  }

  lemma LockInv(s: State, t: Tid)
    requires Inv(s) && Enabled(s, Lock(t))
    ensures Inv(Do(s, Lock(t)))
  {
  }

  lemma StoreInv(s: State, t: Tid)
    requires Inv(s) && Enabled(s, Store(t))
    ensures Inv(Do(s, Store(t)))
  {
    var s' := Do(s, Store(t));
    forall u | u in s'.pcs && u != t
      ensures s'.pcs[u] == s.pcs[u]
    {
    }
  }

  lemma UnlockInv(s: State, t: Tid)
    requires Inv(s) && Enabled(s, Unlock(t))
    ensures Inv(Do(s, Unlock(t)))
  {
    assert InCriticalSection(s.pcs[t]);
  }

  lemma {:induction false} RunInv(s: State, moves: seq<Move>)
    requires Inv(s) && Possible(s, moves)
    ensures Inv(Run(s, moves))
    decreases |moves|
  {
    if moves != [] {
      StepInv(s, moves[0]);
      RunInv(Do(s, moves[0]), moves[1..]);
    }
  }

  /** No lost update, in every reachable state: an entry carries the bit of every learner
      that has written into its insertion, and at most one learner is in the critical section. */
  lemma LearnersLoseNothing(s: State, moves: seq<Move>)
    requires Start(s) && Possible(s, moves)
    ensures var e := Run(s, moves);
            && (forall t :: t in e.pcs && e.entry.Some? && Taught(e.pcs[t]) == Some(e.entry.value.id)
                  ==> t in e.sides && HasBit(e.entry.value.ready, e.sides[t]))
            && (forall t, u :: t in e.pcs && u in e.pcs && InCriticalSection(e.pcs[t]) && InCriticalSection(e.pcs[u])
                  ==> t == u)
  {
    StartInv(s);
    RunInv(s, moves);
  }

  /** An insertion number that is over never comes back. */
  lemma {:induction false} InsertionsAreFresh(s: State, moves: seq<Move>, id: nat)
    requires Inv(s) && Possible(s, moves)
    requires id < s.inserted && (s.entry.Some? ==> s.entry.value.id != id)
    ensures Run(s, moves).entry.Some? ==> Run(s, moves).entry.value.id != id
    decreases |moves|
  {
    if moves != [] {
      StepInv(s, moves[0]);
      InsertionsAreFresh(Do(s, moves[0]), moves[1..], id);
    }
  }

  /** Over any run, ready bits of an entry never go back while that entry stays. */
  lemma {:induction false} BitsOnlyGrow(s: State, moves: seq<Move>, side: Side)
    requires Inv(s) && Possible(s, moves)
    requires s.entry.Some? && HasBit(s.entry.value.ready, side)
    requires Run(s, moves).entry.Some? && Run(s, moves).entry.value.id == s.entry.value.id
    ensures HasBit(Run(s, moves).entry.value.ready, side)
    decreases |moves|
  {
    if moves != [] {
      StepInv(s, moves[0]);
      var s' := Do(s, moves[0]);
      if s'.entry.Some? && s'.entry.value.id == s.entry.value.id {
        BitsOnlyGrow(s', moves[1..], side);
      } else {
        InsertionsAreFresh(s', moves[1..], s.entry.value.id);
      }
    }
  }

  ghost predicate NoEviction(moves: seq<Move>) {
    forall i :: 0 <= i < |moves| ==> moves[i] != Evict
  }

  /** Some learner of the side has written into the entry. */
  ghost predicate SideTaught(s: State, side: Side) {
    exists t :: t in s.pcs && t in s.sides && s.sides[t] == side && Taught(s.pcs[t]).Some?
  }

  predicate EntryHasBit(s: State, side: Side) {
    s.entry.Some? && HasBit(s.entry.value.ready, side)
  }

  ghost predicate OneTarget(s: State) {
    forall t :: t in s.pcs && Pointer(s.pcs[t]).Some? ==>
      s.entry.Some? && Pointer(s.pcs[t]).value == s.entry.value.id
  }

  /** Without eviction every pointer is to the one entry there is, and its bits are those of
      the learners that have written into it. */
  ghost predicate OneEntry(s: State) {
    && OneTarget(s)
    && (EntryHasBit(s, EgressSide) ==> SideTaught(s, EgressSide))
    && (EntryHasBit(s, IngressSide) ==> SideTaught(s, IngressSide))
  }

  lemma {:induction false} OneEntryKept(s: State, moves: seq<Move>)
    requires Inv(s) && OneEntry(s) && Possible(s, moves) && NoEviction(moves)
    ensures Inv(Run(s, moves)) && OneEntry(Run(s, moves))
    decreases |moves|
  {
    if moves != [] {
      StepInv(s, moves[0]);
      OneEntryStep(s, moves[0]);
      assert NoEviction(moves[1..]);
      OneEntryKept(Do(s, moves[0]), moves[1..]);
    }
  }

  lemma OneTargetStep(s: State, m: Move)
    requires Inv(s) && OneTarget(s) && Enabled(s, m) && m != Evict
    ensures OneTarget(Do(s, m))
  {
    match m
    case Insert(_, _) =>
    case Lookup(_) =>
    case Lock(_) =>
    case Store(_) =>
    case Unlock(_) =>
  }

  lemma TaughtStep(s: State, m: Move, side: Side)
    requires Inv(s) && Enabled(s, m) && (EntryHasBit(s, side) ==> SideTaught(s, side))
    ensures EntryHasBit(Do(s, m), side) ==> SideTaught(Do(s, m), side)
  {
    var s' := Do(s, m);
    if EntryHasBit(s, side) {
      var t :| t in s.pcs && t in s.sides && s.sides[t] == side && Taught(s.pcs[t]).Some?;
      assert Taught(s'.pcs[t]).Some?;
    } else if EntryHasBit(s', side) {
      assert (m.Insert? || m.Store?) && s'.sides[m.t] == side && Taught(s'.pcs[m.t]).Some?;
    }
  }

  lemma OneEntryStep(s: State, m: Move)
    requires Inv(s) && OneEntry(s) && Enabled(s, m) && m != Evict
    ensures OneEntry(Do(s, m))
  {
    OneTargetStep(s, m);
    TaughtStep(s, m, EgressSide);
    TaughtStep(s, m, IngressSide);
  }

  /** Without eviction a bit of the entry is set exactly when some learner of its side has
      written into the entry, however many learners ran, whichever insertions failed and
      however they were interleaved. */
  lemma BitsAreExact(s: State, moves: seq<Move>, side: Side)
    requires Start(s) && Possible(s, moves) && NoEviction(moves)
    ensures EntryHasBit(Run(s, moves), side) <==> SideTaught(Run(s, moves), side)
  {
    StartInv(s);
    OneEntryKept(s, moves);
  }

  /** Both bits are set exactly when a learner of each side has written into the entry. */
  lemma BothSidesFinished(s: State, moves: seq<Move>)
    requires Start(s) && Possible(s, moves) && NoEviction(moves)
    ensures var e := Run(s, moves);
            e.entry.Some? && e.entry.value.ready == Ready(true, true) <==>
            SideTaught(e, EgressSide) && SideTaught(e, IngressSide)
  {
    BitsAreExact(s, moves, EgressSide);
    BitsAreExact(s, moves, IngressSide);
  }

  // ---- Which learners finish without having written ----

  /** Some lookup of the learner finds no entry. */
  ghost predicate Misses(s: State, moves: seq<Move>, t: Tid)
    requires Possible(s, moves)
    decreases |moves|
  {
    moves != [] && ((moves[0] == Lookup(t) && s.entry.None?) || Misses(Do(s, moves[0]), moves[1..], t))
  }

  lemma MissStep(s: State, m: Move, t: Tid)
    requires Inv(s) && Enabled(s, m) && t in s.pcs
    ensures t in Do(s, m).pcs
    ensures Do(s, m).pcs[t] == Done(None) <==> s.pcs[t] == Done(None) || (m == Lookup(t) && s.entry.None?)
  {
  }

  /** In any run, evictions included: a learner ends without having written exactly when its
      lookup missed. */
  lemma {:induction false} UntaughtMeansMissed(s: State, moves: seq<Move>, t: Tid)
    requires Inv(s) && Possible(s, moves) && t in s.pcs
    ensures t in Run(s, moves).pcs
    ensures Run(s, moves).pcs[t] == Done(None) <==> s.pcs[t] == Done(None) || Misses(s, moves, t)
    decreases |moves|
  {
    if moves != [] {
      StepInv(s, moves[0]);
      MissStep(s, moves[0], t);
      UntaughtMeansMissed(Do(s, moves[0]), moves[1..], t);
    }
  }

  /** Once one learner of each side has finished and neither missed, both bits are set. */
  lemma FinishedWithoutMissing(s: State, moves: seq<Move>, t: Tid, u: Tid)
    requires Start(s) && Possible(s, moves) && NoEviction(moves)
    requires t in s.sides && s.sides[t].EgressSide? && u in s.sides && s.sides[u].IngressSide?
    requires t in Run(s, moves).pcs && Run(s, moves).pcs[t].Done? && !Misses(s, moves, t)
    requires u in Run(s, moves).pcs && Run(s, moves).pcs[u].Done? && !Misses(s, moves, u)
    ensures Run(s, moves).entry.Some? && Run(s, moves).entry.value.ready == Ready(true, true)
  {
    StartInv(s);
    SidesFixed(s, moves);
    UntaughtMeansMissed(s, moves, t);
    UntaughtMeansMissed(s, moves, u);
    assert Taught(Run(s, moves).pcs[t]).Some? && Taught(Run(s, moves).pcs[u]).Some?;
    BothSidesFinished(s, moves);
  }

  const TWO_LEARNERS := State(None, 0, None, map[0 := EgressSide, 1 := IngressSide],
                              map[0 := Inserting, 1 := Inserting])

  const FAILED_INSERTION := [Insert(0, false), Lookup(0), Insert(1, true)]

  /** That neither missed is needed: the insertion of the first learner fails, it finds no
      entry, and both learners finish without eviction with the first one's bit missing. */
  lemma FailedInsertionLosesABit()
    ensures Start(TWO_LEARNERS) && Possible(TWO_LEARNERS, FAILED_INSERTION) && NoEviction(FAILED_INSERTION)
    ensures var e := Run(TWO_LEARNERS, FAILED_INSERTION);
            && 0 in e.pcs && 1 in e.pcs && e.pcs[0].Done? && e.pcs[1].Done?
            && e.entry.Some? && e.entry.value.ready == Ready(true, false)
  {
    var last := [Insert(1, true)];
    var s1 := Do(TWO_LEARNERS, Insert(0, false));
    var s2 := Do(s1, Lookup(0));
    assert FAILED_INSERTION[1..] == [Lookup(0)] + last && ([Lookup(0)] + last)[1..] == last;
    assert Possible(s2, last) && Run(s2, last) == Do(s2, Insert(1, true));
    assert Possible(s1, [Lookup(0)] + last) && Run(s1, [Lookup(0)] + last) == Run(s2, last);
  }

  lemma {:induction false} SidesFixed(s: State, moves: seq<Move>)
    requires Possible(s, moves)
    ensures Run(s, moves).sides == s.sides
    decreases |moves|
  {
    if moves != [] {
      SidesFixed(Do(s, moves[0]), moves[1..]);
    }
  }

  /** No deadlock: while a learner is unfinished, some learner can move. */
  lemma SomeLearnerCanMove(s: State, t: Tid) returns (m: Move)
    requires Inv(s) && t in s.pcs && !s.pcs[t].Done?
    ensures m != Evict && Enabled(s, m)
  {
    var u := if s.lock.Some? then s.lock.value else t;
    assert s.lock.Some? ==> InCriticalSection(s.pcs[u]);
    match s.pcs[u]
    case Inserting => m := Insert(u, true);
    case LookingUp => m := Lookup(u);
    case Unlocked(_) => m := Lock(u);
    case Locked(_) => m := Store(u);
    case Stored(_) => m := Unlock(u);
  }

  /** One learner with the entry as it is, before its first helper call. */
  function Alone(policy: map<Flow, Ready>, flow: Flow, side: Side): State {
    State(if flow in policy then Some(Entry(0, policy[flow])) else None, 1, None, map[0 := side], map[0 := Inserting])
  }

  /** The only schedule of a learner that runs alone. */
  function Finished(s: State, ok: bool): (r: State)
    requires Enabled(s, Insert(0, ok)) && s.lock.None?
    ensures 0 in r.pcs && r.pcs[0].Done?
  {
    var s1 := Do(s, Insert(0, ok));
    if s1.pcs[0].Done? then s1
    else
      var s2 := Do(s1, Lookup(0));
      if s2.pcs[0].Done? then s2 else Do(Do(Do(s2, Lock(0)), Store(0)), Unlock(0))
  }

  /** A learner that runs alone is the atomic step of the packet programs. */
  lemma AloneIsAtomic(policy: map<Flow, Ready>, flow: Flow, side: Side, ok: bool)
    ensures Finished(Alone(policy, flow, side), ok).entry.Some? <==> flow in Learned(policy, flow, side, ok)
    ensures flow in Learned(policy, flow, side, ok) ==>
              Finished(Alone(policy, flow, side), ok).entry.value.ready == Learned(policy, flow, side, ok)[flow]
  {
  }
}
