/** Which runs get to an end: how many fault-free calls each path needs, and exactly what stops it. */
module PhaseFLiveness {
  import opened PhaseFWorld
  import opened PhaseFBackend
  import opened PhaseFProgram
  import opened PhaseFJournal
  import opened PhaseFDriver
  import opened PhaseFForwardOld
  import opened PhaseFInvariant
  import opened PhaseFTheorems

  /** A readable journal, a host where it says, and no temporary name left by a cut publish. */
  ghost predicate Ready(z: Frozen, s: State) {
    Held(z, s) && !s.torn && s.live.world.temps == {}
  }

  // ----- Rolling back to the end -----

  /** The calls of `RollbackCall` still needed to close the journal. */
  function RollbackDistance(v: Scan): nat {
    if !v.mode.Rollback? then 2 + 3 * |RollbackProgram(v.completed)|
    else
      match v.expected
      case XCompIntent => if v.rollback < |v.program| then 3 * (|v.program| - v.rollback) + 1 else 0
      case XCompDispatched => if v.rollback < |v.program| then 3 * (|v.program| - v.rollback) else 0
      case XCompObserve => if v.rollback < |v.program| then 3 * (|v.program| - v.rollback) - 1 else 0
      case XTerminalOld => 1
      case _ => 0
  }

  predicate CanRollBack(v: Scan) {
    if v.mode.Activation? then
      && v.activation > 0
      && (v.expected.XOpIntent? || v.expected.XOpDispatched? || v.expected.XWriterIntent? || v.expected.XWriterDispatched?)
    else v.mode.Rollback? && !v.expected.XClosed?
  }

  /** A fault-free call brings a rollback one step closer to its end, whatever the environment does. */
  lemma RollbackProgress(z: Frozen, s: State, e: Env)
    requires WellFrozen(z) && Ready(z, s) && CanRollBack(Checked(s.journal))
    requires RollbackDistance(Checked(s.journal)) > 1
    ensures
      var s' := RollbackCall(z, s, e, NoFault);
      && Ready(z, s') && CanRollBack(Checked(s'.journal))
      && RollbackDistance(Checked(s'.journal)) == RollbackDistance(Checked(s.journal)) - 1
  {
    hide WellFrozen, Accepted, Checked, Midway, LiveAt, Mentions, CompletedOps, CompensatedOps, RollbackProgram,
      ProgramOp, First,
      CompensateNext, CompensateDispatched, Write;
    var v := Checked(s.journal);
    RollbackReads(s.journal);
    OneRecord(z, s);
    if v.mode.Activation? {
      RollbackStartInv(z, s, NoFault);
      AcceptedShape(Write(s, RollbackStarted, NoStep, NoFault).journal);
    } else {
      match v.expected
      case XCompIntent => CompensateNextInv(z, s, NoFault);
      case XCompDispatched => CompDispatchInv(z, s, NoFault);
      case XCompObserve => CompensationSettles(z, s, e);
      case _ =>
    }
  }

  /** A call that only writes one record leaves the host alone. */
  lemma OneRecord(z: Frozen, s: State)
    requires s.journal != []
    ensures forall kind, step :: Write(s, kind, step, NoFault).live == s.live && !Write(s, kind, step, NoFault).torn == !s.torn
    ensures forall program, compensated | compensated <= program ::
              CompensateNext(z, s, program, compensated, NoFault).live == s.live
    ensures forall n :: ForwardNext(s, n, NoFault).live == s.live
  {
  }

  lemma CompensationSettles(z: Frozen, s: State, e: Env)
    requires WellFrozen(z) && Ready(z, s) && Checked(s.journal).expected.XCompObserve?
    requires Checked(s.journal).rollback < |Checked(s.journal).program|
    ensures
      var v := Checked(s.journal);
      var s' := CompensateDispatched(z, s, v.program[v.rollback], e, NoFault);
      Ready(z, s') && Checked(s'.journal) == Compensated(v)
  {
    hide WellFrozen, ProgramOp, Prefix, Remaining, First, Select, RollbackProgram, Midway, Accepted, Checked,
      ObserveCompensation, Compensate, Undoable, Write;
    var v := Checked(s.journal);
    AcceptedShape(s.journal);
    var op := v.program[v.rollback];
    var before := Remaining(v.activation, v.rollback);
    RollbackUndoable(v.activation, v.rollback);
    SettledCompensation(z, s.live, before, op, e);
    match ObserveCompensation(z, s.live, op)
    case SeesAmbiguous => assert false;
    case SeesOld =>
      CompensatedInv(z, s, s.live, NoFault);
      OneRecord(z, s);
    case SeesDesired =>
      var after := Compensate(z, s.live, op, e).live;
      CompensatedInv(z, s, after, NoFault);
      OneRecord(z, s.(live := after));
  }

  lemma SettledCompensation(z: Frozen, l: Live, s: Done, op: Op, e: Env)
    requires WellFrozen(z) && Undoing(z, l, s, op) && Undoable(s, op) && l.world.temps == {}
    ensures
      var seen := ObserveCompensation(z, l, op);
      && !seen.SeesAmbiguous?
      && (seen.SeesOld? ==> Midway(z, l, Without(s, op)))
      && (seen.SeesDesired? ==>
            var r := Compensate(z, l, op, e);
            r.returned && ObserveCompensation(z, r.live, op).SeesOld? && Midway(z, r.live, Without(s, op))
            && r.live.world.temps == {})
  {
    hide WellFrozen, ObserveCompensation, Compensate, Undoable;
    if Midway(z, l, s) {
      CompensationStep(z, l, s, op, e);
    } else {
      AlreadyCompensated(z, l, s, op, e);
    }
  }

  function Rollbacks(es: seq<Env>): (actions: seq<Action>)
    ensures |actions| == |es|
  {
    if es == [] then [] else [Action.Rollback(es[0], NoFault)] + Rollbacks(es[1..])
  }

  /** From wherever an activation was interrupted before its writer, as many fault-free calls as
      `RollbackDistance` says close the journal with everything compensated.  It is closed as
      TERMINAL_OLD exactly when the old container is back at its frozen health; otherwise the journal
      is lost although the host is as it was. */
  lemma {:induction false} RollbackCompletes(z: Frozen, s: State, es: seq<Env>)
    requires WellFrozen(z) && Ready(z, s) && CanRollBack(Checked(s.journal))
    requires |es| == RollbackDistance(Checked(s.journal))
    ensures
      var s' := Run(z, s, Rollbacks(es));
      && Midway(z, s'.live, NOTHING)
      && (EndsOld(s') <==> s'.live.world.canonical.value.health == z.container.health)
      && (EndsOld(s') <==> Readable(s'))
    decreases |es|
  {
    hide WellFrozen, Accepted, Checked, Midway, LiveAt, RollbackProgram, ProgramOp, First, RollbackCall;
    StillToDo(z, s);
    var s1 := RollbackCall(z, s, es[0], NoFault);
    assert Rollbacks(es)[1..] == Rollbacks(es[1..]);
    if RollbackDistance(Checked(s.journal)) > 1 {
      RollbackProgress(z, s, es[0]);
      RollbackCompletes(z, s1, es[1..]);
    } else {
      assert Rollbacks(es[1..]) == [];
      RollbackCloses(z, s, es[0]);
    }
  }

  /** An old container that was frozen stopped has no health to recover: the rollback then always ends
      TERMINAL_OLD. */
  lemma RollbackOfStopped(z: Frozen, s: State, es: seq<Env>)
    requires WellFrozen(z) && Ready(z, s) && CanRollBack(Checked(s.journal)) && IsStopped(z.container)
    requires |es| == RollbackDistance(Checked(s.journal))
    ensures EndsOld(Run(z, s, Rollbacks(es))) && FullOld(z, Run(z, s, Rollbacks(es)).live.world)
  {
    hide WellFrozen, Ready, Run, CanRollBack, RollbackDistance, Accepted, Checked;
    RollbackCompletes(z, s, es);
    FullyCompensated(z, Run(z, s, Rollbacks(es)).live);
  }

  /** An activation interrupted after `k` operations needs 3k + 2 calls. */
  lemma RollbackCalls(z: Frozen, s: State)
    requires Held(z, s) && Checked(s.journal).mode.Activation?
    ensures RollbackDistance(Checked(s.journal)) == 2 + 3 * Checked(s.journal).activation
  {
    hide Accepted, Checked, Midway, RollbackProgram, ProgramOp, First, LiveAt;
    AcceptedShape(s.journal);
    RollbackLength(Checked(s.journal).activation);
  }

  /** Whatever run of calls, faults and health changes came before: if it left the journal readable, no
      temporary name behind and a rollback admissible, the old state comes back. */
  lemma InterruptedRunRollsBack(z: Frozen, s: State, actions: seq<Action>, es: seq<Env>)
    requires WellFrozen(z) && Initial(z, s)
    requires Readable(Run(z, s, actions)) && Run(z, s, actions).live.world.temps == {}
    requires CanRollBack(Checked(Run(z, s, actions).journal))
    requires |es| == RollbackDistance(Checked(Run(z, s, actions).journal))
    ensures
      var s' := Run(z, Run(z, s, actions), Rollbacks(es));
      && FilesOld(z, s'.live.world) && UnitsOld(z, s'.live.world) && !NeedReload(s'.live.world)
      && (EndsOld(s') <==> FullOld(z, s'.live.world))
  {
    hide WellFrozen, Accepted, Checked, Midway, LiveAt, RollbackProgram, Sound, Poisoned;
    InitialInv(z, s);
    RunInv(z, s, actions);
    var t := Run(z, s, actions);
    if Poisoned(t.journal) { PoisonedIsRejected(t.journal); }
    RollbackCompletes(z, t, es);
    FullyCompensated(z, Run(z, t, Rollbacks(es)).live);
  }

  lemma StillToDo(z: Frozen, s: State)
    requires Held(z, s) && CanRollBack(Checked(s.journal))
    ensures RollbackDistance(Checked(s.journal)) >= 1
  {
    hide Accepted, Checked, Midway, RollbackProgram, ProgramOp, First;
    AcceptedShape(s.journal);
  }

  lemma RollbackCloses(z: Frozen, s: State, e: Env)
    requires WellFrozen(z) && Ready(z, s) && CanRollBack(Checked(s.journal))
    requires RollbackDistance(Checked(s.journal)) <= 1
    ensures
      var s' := RollbackCall(z, s, e, NoFault);
      && Midway(z, s'.live, NOTHING)
      && (EndsOld(s') <==> s'.live.world.canonical.value.health == z.container.health)
      && (EndsOld(s') <==> Readable(s'))
    ensures RollbackDistance(Checked(s.journal)) == 1
  {
    hide WellFrozen, Accepted, Checked, Midway, Mentions, CompletedOps, CompensatedOps, RollbackProgram, ProgramOp,
      First;
    var v := Checked(s.journal);
    RollbackReads(s.journal);
    assert v.expected.XTerminalOld?;
    RollbackEnds(v.activation);
    FullyCompensated(z, s.live);
    RollbackInv(z, s, e, NoFault);
    var s' := RollbackCall(z, s, e, NoFault);
    if ClosesAmbiguous(z, s, NoFault) { PoisonedIsRejected(s'.journal); }
  }

  // ----- Activating to the end -----

  ghost predicate AllInactive(z: Frozen) {
    forall u: UnitId :: z.units.Get(u).active.Inactive?
  }

  /** No operation of the program is blocked: every unit was frozen inactive and the network is expected
      to have no member. */
  ghost predicate Unobstructed(z: Frozen) {
    AllInactive(z) && z.network.members == {}
  }

  lemma NothingBlocked(z: Frozen)
    requires WellFrozen(z)
    ensures Unobstructed(z) <==> forall op: Op :: !Blocked(z, op)
  {
    if Unobstructed(z) {
    } else if z.network.members != {} {
      assert Blocked(z, CreateStopped);
    } else {
      var u :| !z.units.Get(u).active.Inactive?;
      assert Blocked(z, StartUnit(u));
    }
  }

  /** The calls of `ResumeCall` still needed to announce the writer. */
  function ActivationDistance(v: Scan): nat {
    if v.activation > SIZE then 0
    else
      match v.expected
      case XOpIntent => 3 * (SIZE - v.activation) + 1
      case XOpDispatched => 3 * (SIZE - v.activation)
      case XOpObserve => if v.activation < SIZE then 3 * (SIZE - v.activation) - 1 else 0
      case XWriterIntent => 1
      case _ => 0
  }

  predicate CanActivate(v: Scan) {
    && v.mode.Activation? && v.activation <= SIZE
    && (v.expected.XOpIntent? || v.expected.XOpDispatched? || v.expected.XOpObserve? || v.expected.XWriterIntent?)
  }

  predicate CanonicalHealthy(l: Live) {
    l.world.canonical.Some? && l.world.canonical.value.status.Running? ==> l.world.canonical.value.health.Healthy?
  }

  ghost predicate Unhindered(z: Frozen, s: State, e: Env) {
    Unobstructed(z) && CanonicalHealthy(s.live) && e.health.Healthy?
  }

  lemma SameWorld(z: Frozen, l: Live, op: Op)
    ensures Refresh(z, l, op).world == l.world
  {
  }

  lemma HealthKept(z: Frozen, l: Live, op: Op, e: Env)
    requires CanonicalHealthy(l) && e.health.Healthy?
    ensures CanonicalHealthy(Refresh(z, Apply(z, Refresh(z, l, op), op, e).live, op))
  {
  }

  lemma SettledDispatch(z: Frozen, l: Live, s: Done, op: Op, e: Env)
    requires WellFrozen(z) && InFlight(z, l, s, op) && Enabled(s, op) && l.world.temps == {}
    requires !Blocked(z, op) && CanonicalHealthy(l) && e.health.Healthy?
    ensures
      var seen := Observe(z, l, op);
      var now := Refresh(z, l, op);
      && !seen.SeesAmbiguous? && now.world == l.world
      && (seen.SeesDesired? ==> Midway(z, now, With(s, op)) && InFlight(z, now, s, op))
      && (seen.SeesOld? ==>
            var r := Apply(z, now, op, e);
            var after := Refresh(z, r.live, op);
            && r.returned && Observe(z, r.live, op).SeesDesired?
            && Midway(z, after, With(s, op)) && InFlight(z, after, s, op) && after.world.temps == {})
  {
    hide WellFrozen, Observe, Refresh, Apply, Enabled;
    DispatchLive(z, l, s, op, e, NoFault);
    SameWorld(z, l, op);
    if Midway(z, l, s) {
      ForwardStep(z, l, s, op, e);
    } else {
      AlreadyApplied(z, l, s, op);
    }
  }

  lemma OperationSettles(z: Frozen, s: State, e: Env)
    requires WellFrozen(z) && Ready(z, s) && CanonicalHealthy(s.live) && e.health.Healthy?
    requires Checked(s.journal).expected.XOpObserve? && Checked(s.journal).activation < SIZE
    requires !Blocked(z, ProgramOp(Checked(s.journal).activation))
    ensures
      var v := Checked(s.journal);
      var s' := ResumeDispatched(z, s, ProgramOp(v.activation), e, NoFault);
      Ready(z, s') && CanonicalHealthy(s'.live) && Checked(s'.journal) == Observed(v)
  {
    hide WellFrozen, ProgramOp, Prefix, First, Select, RollbackProgram, Midway, Accepted, Checked, Observe, Refresh,
      Apply,
      Enabled, Write;
    var v := Checked(s.journal);
    AcceptedShape(s.journal);
    var op := ProgramOp(v.activation);
    ProgramEnabled(v.activation);
    SettledDispatch(z, s.live, Prefix(v.activation), op, e);
    HealthKept(z, s.live, op, e);
    var now := Refresh(z, s.live, op);
    match Observe(z, s.live, op)
    case SeesAmbiguous => assert false;
    case SeesDesired =>
      ObservedInv(z, s, now, NoFault);
      OneRecord(z, s.(live := now));
    case SeesOld =>
      var after := Refresh(z, Apply(z, now, op, e).live, op);
      ObservedInv(z, s, after, NoFault);
      OneRecord(z, s.(live := after));
  }

  lemma ActivationProgress(z: Frozen, s: State, e: Env)
    requires WellFrozen(z) && Ready(z, s) && CanActivate(Checked(s.journal)) && Unhindered(z, s, e)
    ensures
      var s' := ResumeCall(z, s, e, NoFault);
      && Ready(z, s') && CanonicalHealthy(s'.live)
      && ActivationDistance(Checked(s'.journal)) == ActivationDistance(Checked(s.journal)) - 1
      && Checked(s'.journal).mode.Activation?
      && (if ActivationDistance(Checked(s.journal)) == 1 then Checked(s'.journal).expected.XWriterDispatched?
          else CanActivate(Checked(s'.journal)))
  {
    hide WellFrozen, Unobstructed, Blocked, Accepted, Checked, Midway, LiveAt, ProgramOp, First, RollbackProgram,
      Select,
      Write, ResumeDispatched;
    var v := Checked(s.journal);
    AcceptedShape(s.journal);
    OneRecord(z, s);
    match v.expected
    case XOpIntent =>
      if v.activation > 0 { PositionsInverse(v.activation - 1); }
      IntentInv(z, s, NoFault);
    case XWriterIntent =>
      PositionsInverse(SIZE - 1);
      WriterIntentInv(z, s, NoFault);
    case XOpDispatched => DispatchInv(z, s, NoFault);
    case XOpObserve =>
      NothingBlocked(z);
      OperationSettles(z, s, e);
    case _ =>
  }

  function Resumes(e: Env, n: nat): (actions: seq<Action>)
    ensures |actions| == n
  {
    if n == 0 then [] else [Resume(e, NoFault)] + Resumes(e, n - 1)
  }

  lemma {:induction false} ActivationCompletes(z: Frozen, s: State, e: Env, n: nat)
    requires WellFrozen(z) && Ready(z, s) && CanActivate(Checked(s.journal)) && Unhindered(z, s, e)
    requires n == ActivationDistance(Checked(s.journal))
    ensures
      var s' := Run(z, s, Resumes(e, n));
      Ready(z, s') && Checked(s'.journal).expected.XWriterDispatched? && Checked(s'.journal).mode.Activation?
    decreases n
  {
    hide WellFrozen, Unobstructed, Accepted, Checked, Midway, LiveAt, ResumeCall, ProgramOp;
    AcceptedShape(s.journal);
    var s1 := ResumeCall(z, s, e, NoFault);
    ActivationProgress(z, s, e);
    assert Resumes(e, n)[1..] == Resumes(e, n - 1);
    if n > 1 {
      ActivationCompletes(z, s1, e, n - 1);
    } else {
      assert Resumes(e, 0) == [];
    }
  }

  // ----- Forward to old, to the end -----

  /** The calls of `ForwardCall` still needed to close the journal. */
  function ForwardDistance(v: Scan): nat {
    if !v.mode.Forwarding? then 2 + 3 * FORWARD_SIZE
    else
      match v.expected
      case XForwardIntent => if v.forward < FORWARD_SIZE then 3 * (FORWARD_SIZE - v.forward) + 1 else 0
      case XForwardDispatched => if v.forward < FORWARD_SIZE then 3 * (FORWARD_SIZE - v.forward) else 0
      case XForwardObserve => if v.forward < FORWARD_SIZE then 3 * (FORWARD_SIZE - v.forward) - 1 else 0
      case XTerminalOld => 1
      case _ => 0
  }

  predicate CanForward(v: Scan) {
    if v.mode.Forwarding? then !v.expected.XClosed? && !v.expected.XTerminalAmbiguous?
    else v.mode.Activation? && (v.expected.XReturnedOrForward? || v.expected.XPostWriter?)
  }

  /** The old container, when it runs under its own name, has its frozen health. */
  predicate OldRecovered(z: Frozen, l: Live) {
    IsOld(z, l.world.canonical) && l.world.canonical.value.status.Running? ==>
      l.world.canonical.value.health == z.container.health
  }

  predicate Cooperates(z: Frozen, l: Live, e: Env) {
    && OldRecovered(z, l)
    && e.health == z.container.health && e.ready && e.recovers
  }

  /** The backend has noted the startup recovery that the journal says was observed. */
  predicate Notes(v: Scan, l: Live) {
    v.mode.Forwarding? && v.forward >= 16 ==> l.recovered
  }

  lemma RecoveryNoted(z: Frozen, l: Live, n: nat, e: Env)
    requires n < FORWARD_SIZE
    ensures l.recovered ==> ApplyForward(z, l, ForwardProgramOp(n), e).live.recovered
    ensures n == 15 && ObserveForward(z, l, ForwardProgramOp(n), e).SeesDesired? ==> l.recovered
  {
  }

  lemma SettledForward(z: Frozen, l: Live, n: nat, e: Env)
    requires WellFrozen(z) && n < FORWARD_SIZE && Restoring(z, l, n) && l.world.temps == {} && (n >= 10 ==> !NeedReload(l.world))
    requires Cooperates(z, l, e)
    ensures
      var op := ForwardProgramOp(n);
      var seen := ObserveForward(z, l, op, e);
      && !seen.SeesAmbiguous?
      && (seen.SeesDesired? ==> Midway(z, l, ForwardDone(n + 1)) && (n >= 9 ==> !NeedReload(l.world)))
      && (seen.SeesOld? ==>
            var r := ApplyForward(z, l, op, e);
            && r.returned && ObserveForward(z, r.live, op, e).SeesDesired?
            && Midway(z, r.live, ForwardDone(n + 1)) && (n >= 9 ==> !NeedReload(r.live.world))
            && r.live.world.temps == {})
  {
    hide WellFrozen, ObserveForward, ApplyForward, ForwardProgramOp, NeedReload;
    ForwardLive(z, l, n, e, NoFault);
    if n >= 15 { ForwardEnds(n); ForwardEnds(n + 1); }
    if Midway(z, l, ForwardDone(n)) {
      ForwardOldStep(z, l, n, e);
      NotWaiting(z, l, n, e);
    } else if n == 9 {
      ReloadAgain(z, l, e);
    } else {
      AlreadyRestored(z, l, n, e);
    }
  }

  lemma NotWaiting(z: Frozen, l: Live, n: nat, e: Env)
    requires WellFrozen(z) && n < FORWARD_SIZE && Midway(z, l, ForwardDone(n)) && Cooperates(z, l, e)
    ensures !Waits(z, l, ForwardProgramOp(n), e)
  {
    if n >= 15 {
      ForwardEnds(n);
      FullyCompensated(z, l);
    }
  }

  lemma OldRecoveredKept(z: Frozen, l: Live, n: nat, e: Env)
    requires Cooperates(z, l, e) && n < FORWARD_SIZE
    requires Midway(z, l, ForwardDone(n)) || Midway(z, l, ForwardDone(n + 1))
    requires WellFrozen(z)
    ensures OldRecovered(z, ApplyForward(z, l, ForwardProgramOp(n), e).live)
  {
    hide FilesAt, LoadedAt, UnitsAt;
  }

  lemma StepSettles(z: Frozen, s: State, e: Env)
    requires WellFrozen(z) && Ready(z, s) && Cooperates(z, s.live, e) && s.journal != []
    requires Checked(s.journal).expected.XForwardObserve? && Shape(Checked(s.journal), Last(s.journal))
    ensures
      var v := Checked(s.journal);
      var s' := ForwardInFlight(z, s, ForwardProgramOp(v.forward), e, NoFault);
      && Ready(z, s') && OldRecovered(z, s'.live) && Checked(s'.journal) == Forwarded(v)
      && (Notes(v, s.live) ==> Notes(Checked(s'.journal), s'.live))
  {
    hide WellFrozen, ProgramOp, ForwardProgramOp, First, Select, RollbackProgram, Midway, Accepted, Checked,
      ObserveForward, ApplyForward, Write;
    var v := Checked(s.journal);
    var op := ForwardProgramOp(v.forward);
    SettledForward(z, s.live, v.forward, e);
    RecoveryNoted(z, s.live, v.forward, e);
    RecoveryNoted(z, ApplyForward(z, s.live, op, e).live, v.forward, e);
    OneRecord(z, s);
    match ObserveForward(z, s.live, op, e)
    case SeesAmbiguous => assert false;
    case SeesDesired => RestoredInv(z, s, s.live, NoFault);
    case SeesOld =>
      var after := ApplyForward(z, s.live, op, e).live;
      OldRecoveredKept(z, s.live, v.forward, e);
      RestoredInv(z, s, after, NoFault);
      OneRecord(z, s.(live := after));
  }

  lemma ForwardProgress(z: Frozen, s: State, e: Env)
    requires WellFrozen(z) && Ready(z, s) && CanForward(Checked(s.journal)) && Cooperates(z, s.live, e)
    ensures
      var s' := ForwardCall(z, s, e, NoFault);
      && Ready(z, s') && OldRecovered(z, s'.live) && ForwardDistance(Checked(s.journal)) >= 1
      && (Notes(Checked(s.journal), s.live) ==> Notes(Checked(s'.journal), s'.live))
      && Checked(s'.journal).mode.Forwarding?
      && ForwardDistance(Checked(s'.journal)) == ForwardDistance(Checked(s.journal)) - 1
      && (if ForwardDistance(Checked(s.journal)) == 1 then Checked(s'.journal).expected.XClosed?
          else CanForward(Checked(s'.journal)))
  {
    hide WellFrozen, Accepted, Checked, Midway, LiveAt, ProgramOp, ForwardProgramOp, First, FirstForward,
      RollbackProgram, Select,
      Write, ForwardInFlight, ForwardNext, Mentions, ForwardedOps, OldRecovered;
    var v := Checked(s.journal);
    ForwardReads(s.journal);
    OneRecord(z, s);
    match v.expected
    case XReturnedOrForward => ForwardStartInv(z, s, NoFault);
    case XPostWriter => ForwardStartInv(z, s, NoFault);
    case XForwardIntent => ForwardNextInv(z, s, NoFault);
    case XTerminalOld => ForwardNextInv(z, s, NoFault);
    case XForwardDispatched => ForwardDispatchInv(z, s, NoFault);
    case XForwardObserve => StepSettles(z, s, e);
    case _ =>
  }

  function Forwards(e: Env, n: nat): (actions: seq<Action>)
    ensures |actions| == n
  {
    if n == 0 then [] else [ForwardOld(e, NoFault)] + Forwards(e, n - 1)
  }

  /** After the writer, `ForwardDistance` fault-free calls close the journal as TERMINAL_OLD with the
      host restored and the startup recovery done, provided the container's health and readiness come
      back.  No AMBIGUOUS is met. */
  lemma {:induction false} ForwardCompletes(z: Frozen, s: State, e: Env, n: nat)
    requires WellFrozen(z) && Ready(z, s) && CanForward(Checked(s.journal)) && Cooperates(z, s.live, e)
    requires n == ForwardDistance(Checked(s.journal))
    ensures
      var s' := Run(z, s, Forwards(e, n));
      && EndsOld(s') && Readable(s') && FullOld(z, s'.live.world) && !NeedReload(s'.live.world)
      && (Notes(Checked(s.journal), s.live) ==> s'.live.recovered)
    decreases n
  {
    hide WellFrozen, Accepted, Checked, Midway, LiveAt, ForwardCall, ProgramOp, OldRecovered, FullOld, NeedReload;
    var s1 := ForwardCall(z, s, e, NoFault);
    ForwardProgress(z, s, e);
    assert Forwards(e, n)[1..] == Forwards(e, n - 1);
    if n > 1 {
      ForwardCompletes(z, s1, e, n - 1);
    } else {
      assert Forwards(e, 0) == [];
      AcceptedShape(s1.journal);
      HeldTerminal(z, s1);
      RecoveredIsFull(z, s1.live);
    }
  }

  lemma RecoveredIsFull(z: Frozen, l: Live)
    requires WellFrozen(z) && Midway(z, l, NOTHING) && OldRecovered(z, l)
    ensures FullOld(z, l.world)
  {
    FullyCompensated(z, l);
  }

  /** Unlike a rollback, the forward path waits: while the old container has not recovered, the startup
      recovery step changes nothing, and the journal stays open. */
  lemma ForwardWaits(z: Frozen, s: State, e: Env, f: Fault)
    requires WellFrozen(z) && Held(z, s) && Checked(s.journal).expected.XForwardObserve?
    requires Checked(s.journal).forward == 15
    requires s.live.world.canonical.Some? ==> s.live.world.canonical.value.health != z.container.health
    ensures ForwardCall(z, s, e, f) == s
  {
    hide WellFrozen, Accepted, Checked, Midway, ProgramOp, First, FirstForward, RollbackProgram, Select, Write,
      Mentions, ForwardedOps;
    ForwardReads(s.journal);
    ForwardEnds(15);
    ForwardEnds(16);
    FullyCompensated(z, s.live);
  }
}
