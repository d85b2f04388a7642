/** Concurrent callers of `FullReconcile` behind the one-slot gate. Every read of the
    context, every state update and every backend call is a step of its own, and the
    scheduler interleaves the steps of any number of callers. */
module Serial {
  import opened Wrappers
  import opened Reconciler

  type Caller = nat

  datatype Phase =
    | Outside                 // no call in progress
    | Waiting                 // about to look at the context, or waiting for the gate
    | Entered                 // holds the gate, state not yet updated
    | Between(done: nat)      // `done` stages completed, next one not begun
    | Calling(done: nat)      // inside the backend call of stage `done`
    | Failing(done: nat)      // a stage failed or was cancelled; `done` calls were made
    | Leaving(done: nat, ok: bool)  // outcome recorded in the state, gate still held

  datatype Call = Call(caller: Caller, stage: Stage)

  /** A run that held the gate: the backend calls it made, and its outcome. */
  datatype Gated = Gated(caller: Caller, calls: nat, ok: bool)

  /** `calls` is what the backend sees; `gated` is history only. */
  datatype System = System(gate: Option<Caller>, state: AgentState, phases: map<Caller, Phase>,
                           calls: seq<Call>, gated: seq<Gated>)

  datatype Move =
    | Arrive(c: Caller) | Refuse(c: Caller) | Enter(c: Caller) | Begin(c: Caller) | Cancel(c: Caller)
    | Invoke(c: Caller) | Return(c: Caller, ok: bool) | Fail(c: Caller) | Succeed(c: Caller) | Leave(c: Caller)

  const START := System(None, AgentBootstrapping, map[], [], [])

  function PhaseOf(s: System, c: Caller): Phase {
    if c in s.phases then s.phases[c] else Outside
  }

  predicate Enabled(s: System, m: Move) {
    match m
    case Arrive(c) => PhaseOf(s, c).Outside?
    case Refuse(c) => PhaseOf(s, c).Waiting?
    case Enter(c) => PhaseOf(s, c).Waiting? && s.gate.None?
    case Begin(c) => PhaseOf(s, c).Entered?
    case Cancel(c) => PhaseOf(s, c).Between? && PhaseOf(s, c).done < |STAGES|
    case Invoke(c) => PhaseOf(s, c).Between? && PhaseOf(s, c).done < |STAGES|
    case Return(c, _) => PhaseOf(s, c).Calling?
    case Fail(c) => PhaseOf(s, c).Failing?
    case Succeed(c) => PhaseOf(s, c).Between? && PhaseOf(s, c).done == |STAGES|
    case Leave(c) => PhaseOf(s, c).Leaving?
  }

  function To(s: System, c: Caller, p: Phase): System {
    s.(phases := s.phases[c := p])
  }

  function Do(s: System, m: Move): System
    requires Enabled(s, m)
  {
    match m
    case Arrive(c) => To(s, c, Waiting)
    case Refuse(c) => To(s, c, Outside)
    case Enter(c) => To(s, c, Entered).(gate := Some(c))
    case Begin(c) => To(s, c, Between(0)).(state := AgentReconciling)
    case Cancel(c) => To(s, c, Failing(PhaseOf(s, c).done))
    case Invoke(c) =>
      var n := PhaseOf(s, c).done;
      To(s, c, Calling(n)).(calls := s.calls + [Call(c, STAGES[n])])
    case Return(c, ok) =>
      var n := PhaseOf(s, c).done;
      To(s, c, if ok then Between(n + 1) else Failing(n + 1))
    case Fail(c) => To(s, c, Leaving(PhaseOf(s, c).done, false)).(state := AgentDisabled)
    case Succeed(c) => To(s, c, Leaving(PhaseOf(s, c).done, true)).(state := AgentReady)
    case Leave(c) =>
      To(s, c, Outside).(gate := None, gated := s.gated + [Gated(c, PhaseOf(s, c).done, PhaseOf(s, c).ok)])
  }

  predicate Inside(p: Phase) {
    !p.Outside? && !p.Waiting?
  }

  /** The backend calls a caller inside the gate has made. */
  function Made(p: Phase): nat {
    match p
    case Between(n) => n
    case Calling(n) => n + 1
    case Failing(n) => n
    case Leaving(n, _) => n
    case _ => 0
  }

  predicate InStep(p: Phase) {
    match p
    case Between(n) => n <= |STAGES|
    case Calling(n) => n < |STAGES|
    case Failing(n) => n <= |STAGES|
    case Leaving(n, ok) => n <= |STAGES| && (ok ==> n == |STAGES|)
    case _ => true
  }

  /** The first `n` stages, called by one caller. */
  function Prefix(c: Caller, n: nat): seq<Call>
    requires n <= |STAGES|
  {
    seq(n, i requires 0 <= i < n => Call(c, STAGES[i]))
  }

  predicate WellFormed(gated: seq<Gated>) {
    forall i :: 0 <= i < |gated| ==> gated[i].calls <= |STAGES| && (gated[i].ok ==> gated[i].calls == |STAGES|)
  }

  /** The calls of a list of gated runs, one after the other. */
  function Concatenation(gated: seq<Gated>): seq<Call>
    requires WellFormed(gated)
  {
    if gated == [] then []
    else Concatenation(gated[..|gated| - 1]) + Prefix(gated[|gated| - 1].caller, gated[|gated| - 1].calls)
  }

  /** The state when the gate is free, by the last gated run. */
  function Settled(gated: seq<Gated>): AgentState {
    if gated == [] then AgentBootstrapping
    else if gated[|gated| - 1].ok then AgentReady
    else AgentDisabled
  }

  /** Exactly the caller that holds the gate is past it. */
  ghost predicate Exclusive(s: System) {
    forall c: Caller :: (Inside(PhaseOf(s, c)) <==> s.gate == Some(c)) && InStep(PhaseOf(s, c))
  }

  ghost predicate Inv(s: System) {
    && Exclusive(s)
    && WellFormed(s.gated)
    && match s.gate
       case None => s.calls == Concatenation(s.gated) && s.state == Settled(s.gated)
       case Some(c) =>
         var p := PhaseOf(s, c);
         && s.calls == Concatenation(s.gated) + Prefix(c, Made(p))
         && (p.Entered? ==> s.state == Settled(s.gated))
         && (p.Leaving? ==> s.state == if p.ok then AgentReady else AgentDisabled)
         && (!p.Entered? && !p.Leaving? ==> s.state == AgentReconciling)
  }

  lemma StartInv()
    ensures Inv(START)
  {
  }

  lemma ExclusionKept(s: System, m: Move)
    requires Inv(s) && Enabled(s, m)
    ensures Exclusive(Do(s, m))
    ensures forall c: Caller :: c != m.c ==> PhaseOf(Do(s, m), c) == PhaseOf(s, c)
  {
    var s' := Do(s, m);
    forall c: Caller
      ensures (Inside(PhaseOf(s', c)) <==> s'.gate == Some(c)) && InStep(PhaseOf(s', c))
    {
      assert c != m.c ==> PhaseOf(s', c) == PhaseOf(s, c);
    }
  }

  lemma OneMoreCall(c: Caller, n: nat)
    requires n < |STAGES|
    ensures Prefix(c, n + 1) == Prefix(c, n) + [Call(c, STAGES[n])]
  {
  }

  lemma OneMoreRun(gated: seq<Gated>, g: Gated)
    requires WellFormed(gated) && g.calls <= |STAGES| && (g.ok ==> g.calls == |STAGES|)
    ensures WellFormed(gated + [g])
    ensures Concatenation(gated + [g]) == Concatenation(gated) + Prefix(g.caller, g.calls)
  {
    assert (gated + [g])[..|gated|] == gated;
  }

  lemma InvokeInv(s: System, c: Caller)
    requires Inv(s) && Enabled(s, Invoke(c))
    ensures Inv(Do(s, Invoke(c)))
  {
    ExclusionKept(s, Invoke(c));
    OneMoreCall(c, PhaseOf(s, c).done);
    var whole := Concatenation(s.gated);
    var n := PhaseOf(s, c).done;
    assert whole + Prefix(c, n) + [Call(c, STAGES[n])] == whole + (Prefix(c, n) + [Call(c, STAGES[n])]);
  }

  lemma LeaveInv(s: System, c: Caller)
    requires Inv(s) && Enabled(s, Leave(c))
    ensures Inv(Do(s, Leave(c)))
  {
    ExclusionKept(s, Leave(c));
    OneMoreRun(s.gated, Gated(c, PhaseOf(s, c).done, PhaseOf(s, c).ok));
  }

  lemma StepInv(s: System, m: Move)
    requires Inv(s) && Enabled(s, m)
    ensures Inv(Do(s, m))
  {
    match m
    case Invoke(c) => InvokeInv(s, c);
    case Leave(c) => LeaveInv(s, c);
    case _ => ExclusionKept(s, m);
  }

  predicate Possible(s: System, moves: seq<Move>)
    decreases |moves|
  {
    moves == [] || (Enabled(s, moves[0]) && Possible(Do(s, moves[0]), moves[1..]))
  }

  /** The system after the moves. */
  function After(s: System, moves: seq<Move>): System
    requires Possible(s, moves)
    decreases |moves|
  {
    if moves == [] then s else After(Do(s, moves[0]), moves[1..])
  }

  lemma {:induction false} RunInv(s: System, moves: seq<Move>)
    requires Inv(s) && Possible(s, moves)
    ensures Inv(After(s, moves))
    decreases |moves|
  {
    if moves != [] {
      StepInv(s, moves[0]);
      RunInv(Do(s, moves[0]), moves[1..]);
    }
  }

  /** What the backend sees of any number of callers, however they are scheduled and
      wherever they are cancelled: a concatenation of prefixes of the pipeline, each by one
      caller, with the successful ones complete; the last one may be under way. */
  lemma ReconcilesAreSerialized(moves: seq<Move>)
    requires Possible(START, moves)
    ensures var s := After(START, moves);
            && WellFormed(s.gated)
            && (s.gate.None? ==> s.calls == Concatenation(s.gated))
            && (s.gate.Some? ==>
                  exists n: nat :: n <= |STAGES| && s.calls == Concatenation(s.gated) + Prefix(s.gate.value, n))
  {
    StartInv();
    RunInv(START, moves);
    var s := After(START, moves);
    if s.gate.Some? {
      assert s.calls == Concatenation(s.gated) + Prefix(s.gate.value, Made(PhaseOf(s, s.gate.value)));
    }
  }

  /** At most one caller is past the gate. */
  lemma OneCallerAtATime(moves: seq<Move>, c: Caller, d: Caller)
    requires Possible(START, moves)
    requires Inside(PhaseOf(After(START, moves), c)) && Inside(PhaseOf(After(START, moves), d))
    ensures c == d
  {
    StartInv();
    RunInv(START, moves);
  }

  /** While the gate is free the state is Ready exactly if the last gated run succeeded,
      and Disabled exactly if it failed. */
  lemma StateReportsTheLastRun(moves: seq<Move>)
    requires Possible(START, moves)
    ensures var s := After(START, moves);
            s.gate.None? ==>
              && (s.state == AgentReady <==> s.gated != [] && s.gated[|s.gated| - 1].ok)
              && (s.state == AgentDisabled <==> s.gated != [] && !s.gated[|s.gated| - 1].ok)
  {
    StartInv();
    RunInv(START, moves);
  }

  // ---- What a caller can do, and cannot ----

  lemma {:induction false} AfterBoth(s: System, a: seq<Move>, b: seq<Move>)
    requires Possible(s, a) && Possible(After(s, a), b)
    ensures Possible(s, a + b) && After(s, a + b) == After(After(s, a), b)
    decreases |a|
  {
    if a == [] {
      assert a + b == b;
    } else {
      AfterBoth(Do(s, a[0]), a[1..], b);
      assert (a + b)[0] == a[0] && (a + b)[1..] == a[1..] + b;
    }
  }

  lemma OneMove(s: System, m: Move)
    requires Enabled(s, m)
    ensures Possible(s, [m]) && After(s, [m]) == Do(s, m)
  {
    assert [m][1..] == [];
    assert After(Do(s, m), []) == Do(s, m);
  }

  lemma OneMoveMore(s: System, moves: seq<Move>, m: Move)
    requires Possible(s, moves) && Enabled(After(s, moves), m)
    ensures Possible(s, moves + [m]) && After(s, moves + [m]) == Do(After(s, moves), m)
  {
    OneMove(After(s, moves), m);
    AfterBoth(s, moves, [m]);
  }

  /** A caller alone, from the free gate up to `n` completed stages. */
  lemma {:induction false} StagesCanRun(s: System, c: Caller, n: nat) returns (moves: seq<Move>)
    requires s.gate.None? && PhaseOf(s, c).Outside? && n <= |STAGES|
    ensures Possible(s, moves)
    ensures var t := After(s, moves);
            && PhaseOf(t, c) == Between(n) && t.calls == s.calls + Prefix(c, n)
            && t.gated == s.gated && t.state == AgentReconciling && t.gate == Some(c)
  {
    if n == 0 {
      moves := [];
      OneMoveMore(s, moves, Arrive(c));
      moves := moves + [Arrive(c)];
      OneMoveMore(s, moves, Enter(c));
      moves := moves + [Enter(c)];
      OneMoveMore(s, moves, Begin(c));
      moves := moves + [Begin(c)];
      assert s.calls + Prefix(c, 0) == s.calls;
    } else {
      moves := StagesCanRun(s, c, n - 1);
      OneMoveMore(s, moves, Invoke(c));
      moves := moves + [Invoke(c)];
      OneMoveMore(s, moves, Return(c, true));
      moves := moves + [Return(c, true)];
      OneMoreCall(c, n - 1);
      assert s.calls + Prefix(c, n) == (s.calls + Prefix(c, n - 1)) + [Call(c, STAGES[n - 1])];
    }
  }

  /** Every outcome that the serialization allows can happen: from any free gate, a caller
      can complete any number of stages and then leave, with success after the last one and
      with failure before. */
  lemma EveryOutcomeHappens(s: System, c: Caller, n: nat, ok: bool) returns (moves: seq<Move>)
    requires s.gate.None? && PhaseOf(s, c).Outside?
    requires n < |STAGES| || (ok && n == |STAGES|)
    requires ok ==> n == |STAGES|
    ensures Possible(s, moves)
    ensures var t := After(s, moves);
            && t.gate.None? && PhaseOf(t, c).Outside? && t.calls == s.calls + Prefix(c, n)
            && t.gated == s.gated + [Gated(c, n, ok)] && t.state == if ok then AgentReady else AgentDisabled
  {
    moves := StagesCanRun(s, c, n);
    if ok {
      OneMoveMore(s, moves, Succeed(c));
      moves := moves + [Succeed(c)];
    } else {
      OneMoveMore(s, moves, Cancel(c));
      moves := moves + [Cancel(c)];
      OneMoveMore(s, moves, Fail(c));
      moves := moves + [Fail(c)];
    }
    OneMoveMore(s, moves, Leave(c));
    moves := moves + [Leave(c)];
  }

  /** A caller on its way out after a failure. */
  predicate Ending(p: Phase) {
    p.Failing? || (p.Leaving? && !p.ok)
  }

  lemma {:induction false} NoCallOnTheWayOut(s: System, c: Caller, moves: seq<Move>)
    requires Ending(PhaseOf(s, c)) && Possible(s, moves) && Leave(c) !in moves
    ensures Invoke(c) !in moves && Succeed(c) !in moves
    decreases |moves|
  {
    if moves != [] {
      var m := moves[0];
      assert m != Leave(c);
      assert Ending(PhaseOf(Do(s, m), c));
      NoCallOnTheWayOut(Do(s, m), c, moves[1..]);
    }
  }

  /** A failed backend call ends the run: the caller makes no further call and does not
      succeed before it has left the gate. */
  lemma FailureEndsTheRun(s: System, c: Caller, moves: seq<Move>)
    requires Enabled(s, Return(c, false)) && Possible(Do(s, Return(c, false)), moves) && Leave(c) !in moves
    ensures Invoke(c) !in moves && Succeed(c) !in moves
  {
    NoCallOnTheWayOut(Do(s, Return(c, false)), c, moves);
  }

  lemma {:induction false} CallsNeedTheGate(s: System, moves: seq<Move>, call: Call)
    requires Possible(s, moves) && !Inside(PhaseOf(s, call.caller))
    requires call in After(s, moves).calls && call !in s.calls
    ensures Enter(call.caller) in moves
    decreases |moves|
  {
    var m := moves[0];
    var s' := Do(s, m);
    if m == Enter(call.caller) {
    } else {
      assert !Inside(PhaseOf(s', call.caller));
      assert m.Invoke? ==> s'.calls == s.calls + [Call(m.c, STAGES[PhaseOf(s, m.c).done])] && m.c != call.caller;
      CallsNeedTheGate(s', moves[1..], call);
    }
  }

  /** Every backend call of any run is by a caller that entered the gate in it; so a caller
      that was refused each time it came made no call. */
  lemma EveryCallIsGated(moves: seq<Move>, call: Call)
    requires Possible(START, moves) && call in After(START, moves).calls
    ensures Enter(call.caller) in moves
  {
    CallsNeedTheGate(START, moves, call);
  }

  // ---- Progress ----

  /** The caller that holds the gate can always take a step, so the gate is never stuck. */
  lemma HolderCanMove(s: System)
    requires Inv(s) && s.gate.Some?
    ensures exists m :: Enabled(s, m) && m.c == s.gate.value
  {
    var c := s.gate.value;
    match PhaseOf(s, c)
    case Entered => assert Enabled(s, Begin(c));
    case Between(n) =>
      if n < |STAGES| {
        assert Enabled(s, Invoke(c));
      } else {
        assert Enabled(s, Succeed(c));
      }
    case Calling(_) => assert Enabled(s, Return(c, true));
    case Failing(_) => assert Enabled(s, Fail(c));
    case Leaving(_, _) => assert Enabled(s, Leave(c));
    case _ => assert false;
  }
}
