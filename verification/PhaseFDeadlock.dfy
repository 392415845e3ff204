/** Where no driver call, with any environment and any fault, can move the transaction again. */
module PhaseFDeadlock {
  import opened PhaseFWorld
  import opened PhaseFBackend
  import opened PhaseFProgram
  import opened PhaseFJournal
  import opened PhaseFDriver
  import opened PhaseFForwardOld
  import opened PhaseFInvariant
  import opened PhaseFTheorems
  import opened PhaseFLiveness

  // ----- A unit that was active when the backend was built -----

  /** A record other than OP_OBSERVED_DESIRED completes no operation. */
  lemma AppendCompletes(j: seq<Record>, kind: Kind, step: StepId)
    requires j != []
    ensures
      CompletedOps(Append(j, kind, step)) ==
        if kind == OpObserved(SeesDesired) && step.Operation? then CompletedOps(j) + [step.op] else CompletedOps(j)
  {
    ReadBackStep(j, Record(|j|, Sha(Last(j)), kind, step));
  }

  lemma WriteCompletes(s: State, kind: Kind, step: StepId, f: Fault)
    requires s.journal != []
    ensures
      CompletedOps(Write(s, kind, step, f).journal) ==
        (if kind == OpObserved(SeesDesired) && step.Operation? && !f.LosesWrite? && !f.TearsFirst?
         then CompletedOps(s.journal) + [step.op] else CompletedOps(s.journal))
    ensures kind != OpObserved(SeesDesired) ==>
              CompletedOps(WriteAndClose(s, kind, step, f).journal) == CompletedOps(s.journal)
  {
    hide CompletedOps;
    AppendCompletes(s.journal, kind, step);
    AppendCompletes(Append(s.journal, kind, step), TerminalAmbiguous, NoStep);
  }

  /** Only the operation in flight is ever completed, by resuming. */
  predicate Completes(z: Frozen, s: State, a: Action, op: Op) {
    && a.Resume? && Readable(s) && s.journal != []
    && Last(s.journal).kind.OpDispatched? && Last(s.journal).step == Operation(op)
  }

  lemma StepCompletes(z: Frozen, s: State, a: Action, op: Op)
    requires op !in CompletedOps(s.journal) && op in CompletedOps(Step(z, s, a).journal)
    ensures Completes(z, s, a, op)
  {
    match a
    case Resume(e, f) => ResumeCompletes(z, s, e, f, op);
    case Rollback(e, f) => RollbackCompletesNothing(z, s, e, f);
    case ForwardOld(e, f) => ForwardCompletesNothing(z, s, e, f);
    case HealthDrift(_) =>
  }

  lemma EmptyRejected()
    ensures !Accepted([])
  {
  }

  lemma ResumeCompletes(z: Frozen, s: State, e: Env, f: Fault, op: Op)
    requires op !in CompletedOps(s.journal) && op in CompletedOps(ResumeCall(z, s, e, f).journal)
    ensures Completes(z, s, Resume(e, f), op)
  {
    hide CompletedOps, Accepted, Observe, Write, ResumeDispatched, ResumeWriter, ProgramOp, Index;
    EmptyRejected();
    if s.journal != [] {
      var last := Last(s.journal);
      forall step ensures CompletedOps(Write(s, OpIntent, step, f).journal) == CompletedOps(s.journal) {
        WriteCompletes(s, OpIntent, step, f);
      }
      WriteCompletes(s, OpDispatched, last.step, f);
      WriteCompletes(s, WriterIntent, NoStep, f);
      WriterCompletesNothing(s, f);
      if last.step.Operation? {
        assert last.step == Operation(last.step.op);
        DispatchedCompletes(z, s, last.step.op, e, f);
      }
    }
  }

  lemma DispatchedCompletes(z: Frozen, s: State, op: Op, e: Env, f: Fault)
    requires s.journal != []
    ensures
      var completed := CompletedOps(ResumeDispatched(z, s, op, e, f).journal);
      || completed == CompletedOps(s.journal)
      || completed == CompletedOps(s.journal) + [op]
  {
    hide CompletedOps, Observe, Refresh, Apply, Write, WriteAndClose, Faulted;
    var now := s.(live := Refresh(z, s.live, op));
    var after := now.(live := Refresh(z, Faulted(now.live, Apply(z, now.live, op, e), PublishedFile(op), f).live, op));
    WriteCompletes(now, OpObserved(SeesDesired), Operation(op), f);
    WriteCompletes(after, OpObserved(SeesDesired), Operation(op), f);
    WriteCompletes(after, OpObserved(SeesOld), Operation(op), f);
  }

  lemma WriterCompletesNothing(s: State, f: Fault)
    ensures s.journal != [] ==> CompletedOps(ResumeWriter(s, f).journal) == CompletedOps(s.journal)
  {
    if s.journal != [] {
      WriteCompletes(s, WriterDispatched, NoStep, f);
      var first := Append(s.journal, WriterDispatched, NoStep);
      ReadBackStep(first, Record(|first|, Sha(Last(first)), WriterReturned, NoStep));
    }
  }

  lemma RollbackCompletesNothing(z: Frozen, s: State, e: Env, f: Fault)
    ensures CompletedOps(RollbackCall(z, s, e, f).journal) == CompletedOps(s.journal)
  {
    hide Accepted, CompletedOps, CompensatedOps, RollbackProgram, First, Mentions, ObserveCompensation, Compensate,
      Write, WriteAndClose, FullOld, Faulted;
    EmptyRejected();
    if s.journal != [] {
      var last := Last(s.journal);
      WriteCompletes(s, RollbackStarted, NoStep, f);
      WriteCompletes(s, CompDispatched, last.step, f);
      WriteCompletes(s, TerminalOld, NoStep, f);
      WriteCompletes(s, TerminalAmbiguous, NoStep, f);
      forall step ensures CompletedOps(Write(s, CompIntent, step, f).journal) == CompletedOps(s.journal) {
        WriteCompletes(s, CompIntent, step, f);
      }
      if last.step.Operation? {
        var op := last.step.op;
        var after := s.(live := Faulted(s.live, Compensate(z, s.live, op, e), CompensatedFile(z, op), f).live);
        WriteCompletes(s, CompObserved(SeesOld), Operation(op), f);
        WriteCompletes(after, CompObserved(SeesOld), Operation(op), f);
        WriteCompletes(after, CompObserved(SeesAmbiguous), Operation(op), f);
      }
    }
  }

  lemma ForwardCompletesNothing(z: Frozen, s: State, e: Env, f: Fault)
    ensures CompletedOps(ForwardCall(z, s, e, f).journal) == CompletedOps(s.journal)
  {
    hide Accepted, CompletedOps, ForwardedOps, FirstForward, Mentions, Write, ForwardInFlight, ForwardNext;
    EmptyRejected();
    if s.journal != [] {
      var last := Last(s.journal);
      WriteCompletes(s, ForwardStarted, NoStep, f);
      WriteCompletes(s, ForwardDispatched, last.step, f);
      RestoringCompletesNothing(z, s, e, f);
    }
  }

  lemma RestoringCompletesNothing(z: Frozen, s: State, e: Env, f: Fault)
    requires s.journal != []
    ensures forall n: nat :: CompletedOps(ForwardNext(s, n, f).journal) == CompletedOps(s.journal)
    ensures forall op :: CompletedOps(ForwardInFlight(z, s, op, e, f).journal) == CompletedOps(s.journal)
  {
    hide CompletedOps, ObserveForward, ApplyForward, Write, WriteAndClose, ForwardProgramOp, Faulted;
    forall n: nat ensures CompletedOps(ForwardNext(s, n, f).journal) == CompletedOps(s.journal) {
      WriteCompletes(s, TerminalOld, NoStep, f);
      WriteCompletes(s, ForwardIntent, ForwardOperation(ForwardProgramOp(n)), f);
    }
    forall op ensures CompletedOps(ForwardInFlight(z, s, op, e, f).journal) == CompletedOps(s.journal) {
      var after := s.(live := Faulted(s.live, ApplyForward(z, s.live, op, e), ForwardedFile(z, op), f).live);
      WriteCompletes(s, ForwardObserved(SeesDesired), ForwardOperation(op), f);
      WriteCompletes(after, ForwardObserved(SeesDesired), ForwardOperation(op), f);
      WriteCompletes(after, ForwardObserved(SeesAmbiguous), ForwardOperation(op), f);
    }
  }

  // ----- A blocked operation -----

  ghost predicate Stalled(s: State, s': State) {
    s'.journal == s.journal && s'.torn == s.torn && s'.writes == s.writes && SameButHealth(s.live, s'.live)
  }

  /** The operation has been dispatched and waits for its observation. */
  predicate WaitsOn(s: State, op: Op) {
    s.journal != [] && Last(s.journal).kind.OpDispatched? && Last(s.journal).step == Operation(op)
  }

  /** It is blocked, and not in effect. */
  predicate WaitsInVain(z: Frozen, s: State, op: Op) {
    WaitsOn(s, op) && Blocked(z, op) && !Observe(z, s.live, op).SeesDesired?
  }

  /** From there no call changes anything: the start is seen as AMBIGUOUS and the creation raises, which
      records nothing; an operation in flight keeps a rollback from starting; and there is no writer yet
      for the forward path. */
  lemma BlockedStalls(z: Frozen, s: State, op: Op, a: Action)
    requires WellFrozen(z) && Held(z, s) && WaitsInVain(z, s, op)
    ensures Stalled(s, Step(z, s, a)) && Held(z, Step(z, s, a)) && WaitsInVain(z, Step(z, s, a), op)
  {
    hide WellFrozen, Accepted, Checked, Blocked, ResumeCall, RollbackCall, ForwardCall, Midway, Observe;
    match a
    case Resume(e, f) => BlockedResume(z, s, op, e, f);
    case Rollback(e, f) => DispatchedIgnores(z, s, op, e, f);
    case ForwardOld(e, f) => DispatchedIgnores(z, s, op, e, f);
    case HealthDrift(h) =>
      DriftInv(z, s, s.journal, h);
      DriftUnseen(z, s.live, op, h);
  }

  lemma DriftUnseen(z: Frozen, l: Live, op: Op, health: Health)
    requires Blocked(z, op)
    ensures Observe(z, Drift(l, health), op) == Observe(z, l, op)
  {
  }

  lemma BlockedResume(z: Frozen, s: State, op: Op, e: Env, f: Fault)
    requires WellFrozen(z) && Held(z, s) && WaitsInVain(z, s, op)
    ensures ResumeCall(z, s, e, f) == s
  {
    hide WellFrozen, Accepted, Checked, ProgramOp, Prefix, Enabled, Apply, Observe, Refresh, Write, Midway;
    var v := Checked(s.journal);
    AcceptedShape(s.journal);
    ProgramEnabled(v.activation);
    NotInEffect(z, s.live, Prefix(v.activation), op);
    ForwardStep(z, s.live, Prefix(v.activation), op, e);
    BlockedRefresh(z, s.live, Prefix(v.activation), op);
  }

  lemma NotInEffect(z: Frozen, l: Live, s: Done, op: Op)
    requires WellFrozen(z) && InFlight(z, l, s, op) && Enabled(s, op) && Blocked(z, op) && !Observe(z, l, op).SeesDesired?
    ensures Midway(z, l, s)
  {
    hide WellFrozen, Midway, Observe, Enabled;
    if Midway(z, l, With(s, op)) { AlreadyApplied(z, l, s, op); }
  }

  lemma BlockedRefresh(z: Frozen, l: Live, s: Done, op: Op)
    requires Midway(z, l, s) && Enabled(s, op) && Blocked(z, op)
    ensures Refresh(z, l, op) == l
  {
  }

  lemma DispatchedIgnores(z: Frozen, s: State, op: Op, e: Env, f: Fault)
    requires Held(z, s) && WaitsOn(s, op)
    ensures RollbackCall(z, s, e, f) == s && ForwardCall(z, s, e, f) == s
  {
    hide Accepted, Checked, LiveAt, ProgramOp, ForwardProgramOp, RollbackProgram, First, Write, Mentions, CompletedOps,
      CompensatedOps, ForwardedOps, FirstForward;
    RollbackReads(s.journal);
  }

  lemma {:induction false} BlockedForever(z: Frozen, s: State, op: Op, actions: seq<Action>)
    requires WellFrozen(z) && Held(z, s) && WaitsInVain(z, s, op)
    ensures Stalled(s, Run(z, s, actions))
    decreases |actions|
  {
    hide WellFrozen, Held, Step, WaitsInVain;
    if actions != [] {
      BlockedStalls(z, s, op, actions[0]);
      BlockedForever(z, Step(z, s, actions[0]), op, actions[1..]);
    }
  }

  /** The operation has not been recorded as done, and if it is in flight it is not in effect. */
  predicate Undone(z: Frozen, s: State, op: Op) {
    op !in CompletedOps(s.journal) && (WaitsOn(s, op) ==> !Observe(z, s.live, op).SeesDesired?)
  }

  /** A dispatch is only recorded, by resuming after its intent. */
  predicate Dispatches(s: State, a: Action, s': State, op: Op) {
    && a.Resume? && Readable(s) && s'.live == s.live
    && s.journal != [] && Last(s.journal).kind.OpIntent? && Last(s.journal).step == Operation(op)
  }

  lemma NewDispatch(z: Frozen, s: State, a: Action, op: Op)
    requires !WaitsOn(s, op) && WaitsOn(Step(z, s, a), op)
    ensures Dispatches(s, a, Step(z, s, a), op)
  {
    hide Accepted, ResumeCall, RollbackCall, ForwardCall;
    match a
    case Resume(e, f) => NewDispatchResuming(z, s, e, f, op);
    case Rollback(e, f) => NoDispatchRollingBack(z, s, e, f, op);
    case ForwardOld(e, f) => NoDispatchForward(z, s, e, f, op);
    case HealthDrift(_) =>
  }

  lemma NewDispatchResuming(z: Frozen, s: State, e: Env, f: Fault, op: Op)
    requires !WaitsOn(s, op) && WaitsOn(ResumeCall(z, s, e, f), op)
    ensures Dispatches(s, Resume(e, f), ResumeCall(z, s, e, f), op)
  {
    hide Accepted, Observe, Refresh, Apply, Faulted, ProgramOp, Index;
    EmptyRejected();
  }

  lemma NoDispatchRollingBack(z: Frozen, s: State, e: Env, f: Fault, op: Op)
    requires !WaitsOn(s, op)
    ensures !WaitsOn(RollbackCall(z, s, e, f), op)
  {
    hide Accepted, ObserveCompensation, Compensate, Faulted, Mentions, CompletedOps, CompensatedOps, First,
      RollbackProgram, FullOld;
    EmptyRejected();
  }

  lemma NoDispatchForward(z: Frozen, s: State, e: Env, f: Fault, op: Op)
    requires !WaitsOn(s, op)
    ensures !WaitsOn(ForwardCall(z, s, e, f), op)
  {
    hide Accepted, ObserveForward, ApplyForward, Faulted, Mentions, ForwardedOps, FirstForward, ForwardProgramOp;
    EmptyRejected();
  }

  /** So a blocked operation stays undone, in every state a run can reach. */
  lemma StepBlocked(z: Frozen, s: State, a: Action, op: Op)
    requires WellFrozen(z) && Inv(z, s) && Blocked(z, op) && Undone(z, s, op)
    ensures Undone(z, Step(z, s, a), op)
  {
    hide WellFrozen, Accepted, Checked, Sound, CompletedOps, Step, Observe, Blocked;
    var s' := Step(z, s, a);
    if Poisoned(s.journal) { PoisonedIsRejected(s.journal); }
    if WaitsOn(s, op) {
      if Readable(s) {
        BlockedStalls(z, s, op, a);
      } else {
        UnreadableStep(z, s, op, a);
      }
    } else {
      if op in CompletedOps(s'.journal) { StepCompletes(z, s, a, op); }
      if WaitsOn(s', op) {
        NewDispatch(z, s, a, op);
        DispatchedUndone(z, s, op);
      }
    }
  }

  lemma UnreadableStep(z: Frozen, s: State, op: Op, a: Action)
    requires !Readable(s) && Blocked(z, op)
    ensures Step(z, s, a).journal == s.journal && Observe(z, Step(z, s, a).live, op) == Observe(z, s.live, op)
  {
    if a.HealthDrift? { DriftUnseen(z, s.live, op, a.health); } else { Unreadable(z, s, a); }
  }

  lemma DispatchedUndone(z: Frozen, s: State, op: Op)
    requires WellFrozen(z) && Held(z, s) && Blocked(z, op)
    requires s.journal != [] && Last(s.journal).kind.OpIntent? && Last(s.journal).step == Operation(op)
    ensures !Observe(z, s.live, op).SeesDesired?
  {
    hide WellFrozen, Accepted, Checked, ProgramOp, Prefix, Enabled, Observe, Midway, Blocked;
    var v := Checked(s.journal);
    AcceptedShape(s.journal);
    ProgramEnabled(v.activation);
    ForwardStep(z, s.live, Prefix(v.activation), op, Env(Healthy, 0, false, false));
  }

  /** Over every run: an activation never gets past a blocked operation, and the writer is never called. */
  lemma {:induction false} BlockedNeverDone(z: Frozen, s: State, op: Op, actions: seq<Action>)
    requires WellFrozen(z) && Inv(z, s) && Blocked(z, op) && Undone(z, s, op)
    ensures Undone(z, Run(z, s, actions), op)
    ensures Run(z, s, actions).writes == 0
    decreases |actions|
  {
    hide WellFrozen, CompletedOps, Inv, Step, Blocked, Observe;
    if actions == [] {
      NotCompletedNotWritten(z, s, op);
    } else {
      StepBlocked(z, s, actions[0], op);
      StepInv(z, s, actions[0]);
      BlockedNeverDone(z, Step(z, s, actions[0]), op, actions[1..]);
    }
  }

  lemma NotCompletedNotWritten(z: Frozen, s: State, op: Op)
    requires Inv(z, s) && op !in CompletedOps(s.journal)
    ensures s.writes == 0
  {
    hide Accepted, Checked, CompletedOps, LiveAt, ProgramOp, Poisoned;
    if Held(z, s) {
      RollbackReads(s.journal);
      Positions(op);
      InFirst(SIZE, op);
    } else {
      PoisonedNoWriter(z, s);
    }
  }

  /** The writer can be reached if and only if every unit was inactive when the backend was built and the
      network is expected to have no members. */
  lemma WriterReachable(z: Frozen, s: State)
    requires WellFrozen(z) && Initial(z, s)
    ensures (exists actions :: Run(z, s, actions).writes == 1) <==> AllInactive(z) && z.network.members == {}
  {
    hide WellFrozen, Midway, CompletedOps, Blocked, AllInactive;
    InitialInv(z, s);
    NothingBlocked(z);
    if Unobstructed(z) {
      var actions := ReachWriter(z, s);
    } else {
      var op: Op :| Blocked(z, op);
      forall actions ensures Run(z, s, actions).writes == 0 {
        GenesisCompletesNothing(op);
        BlockedNeverDone(z, s, op, actions);
      }
    }
  }

  /** An old container that was frozen running on the network is a member it is expected to have: with
      such a container the writer is out of reach. */
  lemma RunningMemberBlocks(z: Frozen, s: State, actions: seq<Action>)
    requires WellFrozen(z) && Initial(z, s) && z.container.status.Running? && z.container.networks.external
    ensures Run(z, s, actions).writes == 0
  {
    hide WellFrozen, CompletedOps;
    assert z.container.id in z.network.members;
    InitialInv(z, s);
    GenesisCompletesNothing(CreateStopped);
    BlockedNeverDone(z, s, CreateStopped, actions);
  }

  lemma GenesisCompletesNothing(op: Op)
    ensures op !in CompletedOps([GEN0])
  {
    assert [GEN0][..0] == [];
  }

  lemma ReachWriter(z: Frozen, s: State) returns (actions: seq<Action>)
    requires WellFrozen(z) && Initial(z, s) && Unobstructed(z)
    ensures Run(z, s, actions).writes == 1
  {
    hide WellFrozen, Unobstructed, CompletedOps, Accepted;
    var e := Env(Healthy, 0, true, true);
    var n := 3 * SIZE + 1;
    var s1 := Step(z, s, HealthDrift(Healthy));
    DriftKeeps(z, s.live, NOTHING, Healthy);
    InitialInv(z, s1);
    assert Unhindered(z, s1, e);
    assert Checked(s1.journal) == START;
    ActivationCompletes(z, s1, e, n);
    RunAppend(z, s1, Resumes(e, n), Resume(e, NoFault));
    WriterCalled(z, Run(z, s1, Resumes(e, n)), e);
    var rest := Resumes(e, n) + [Resume(e, NoFault)];
    actions := [HealthDrift(Healthy)] + rest;
    assert actions[1..] == rest;
  }

  lemma WriterCalled(z: Frozen, s: State, e: Env)
    requires Ready(z, s) && Checked(s.journal).expected.XWriterDispatched? && Checked(s.journal).mode.Activation?
    ensures ResumeCall(z, s, e, NoFault).writes == 1
  {
    hide Accepted, Checked, Midway, LiveAt, ProgramOp, ForwardProgramOp, RollbackProgram, First, ResumeDispatched,
      Write, Index;
    AcceptedShape(s.journal);
    WriterCounts(s);
  }

  lemma WriterCounts(s: State)
    requires s.journal != []
    ensures ResumeWriter(s, NoFault).writes == s.writes + 1
  {
  }

  lemma {:induction false} RunAppend(z: Frozen, s: State, actions: seq<Action>, a: Action)
    ensures Run(z, s, actions + [a]) == Step(z, Run(z, s, actions), a)
    decreases |actions|
  {
    hide Step;
    if actions == [] {
      assert Run(z, Step(z, s, a), []) == Step(z, s, a);
      assert ([] + [a])[1..] == [];
    } else {
      assert (actions + [a])[1..] == actions[1..] + [a];
      RunAppend(z, Step(z, s, actions[0]), actions[1..], a);
    }
  }

  // ----- A temporary name left behind -----

  /** A publish that was cut between creating its temporary name and renaming it: the file is then seen
      as AMBIGUOUS, the operation is in flight so a rollback may not start, and a restore of the same
      path collides with the name.  No call changes anything any more. */
  lemma LeftTempStalls(z: Frozen, s: State, a: Action)
    requires WellFrozen(z) && Held(z, s) && s.live.world.temps != {}
    ensures Stalled(s, Step(z, s, a)) && Held(z, Step(z, s, a)) && Step(z, s, a).live.world.temps != {}
  {
    hide WellFrozen, Accepted, Checked, ResumeCall, RollbackCall, ForwardCall, Midway;
    match a
    case Resume(e, f) => LeftTempResume(z, s, e, f);
    case Rollback(e, f) => LeftTempRollback(z, s, e, f);
    case ForwardOld(e, f) => LeftTempForward(z, s, e, f);
    case HealthDrift(h) => DriftInv(z, s, s.journal, h);
  }

  /** Temporary names are left only between a dispatch and its observation. */
  lemma LeftTempWhere(z: Frozen, s: State)
    requires Held(z, s) && s.live.world.temps != {}
    ensures
      var v := Checked(s.journal);
      match v.mode
      case Activation => v.expected.XOpObserve? && v.activation < SIZE && ProgramOp(v.activation).PublishFile?
                         && s.live.world.temps == {ProgramOp(v.activation).file}
      case Rollback => v.expected.XCompObserve? && v.rollback < |v.program| && v.program[v.rollback].PublishFile?
                       && s.live.world.temps == {v.program[v.rollback].file}
                       && s.live.world.files.Get(v.program[v.rollback].file) != z.files.Get(v.program[v.rollback].file)
      case Forwarding => v.expected.XForwardObserve? && ForwardProgramOp(v.forward).RestoreOldFile?
                         && s.live.world.temps == {ForwardProgramOp(v.forward).file}
                         && z.files.Get(ForwardProgramOp(v.forward).file).Present?
                         && s.live.world.files.Get(ForwardProgramOp(v.forward).file) != z.files.Get(ForwardProgramOp(v.forward).file)
  {
    hide Accepted, Checked, ProgramOp, ForwardProgramOp, RollbackProgram, First, Prefix, Remaining, ForwardDone,
      FilesAt, LoadedAt, UnitsAt, ContainersAt;
  }

  lemma LeftTempResume(z: Frozen, s: State, e: Env, f: Fault)
    requires Held(z, s) && s.live.world.temps != {}
    ensures ResumeCall(z, s, e, f) == s
  {
    hide Accepted, Checked, LiveAt, ProgramOp, ForwardProgramOp, RollbackProgram, First, Write, Apply;
    AcceptedShape(s.journal);
    LeftTempWhere(z, s);
  }

  lemma LeftTempRollback(z: Frozen, s: State, e: Env, f: Fault)
    requires Held(z, s) && s.live.world.temps != {}
    ensures RollbackCall(z, s, e, f) == s
  {
    hide Accepted, Checked, LiveAt, ProgramOp, ForwardProgramOp, RollbackProgram, First, Write, Compensate, Mentions,
      CompletedOps, CompensatedOps;
    RollbackReads(s.journal);
    LeftTempWhere(z, s);
  }

  lemma LeftTempForward(z: Frozen, s: State, e: Env, f: Fault)
    requires Held(z, s) && s.live.world.temps != {}
    ensures ForwardCall(z, s, e, f) == s
  {
    hide Accepted, Checked, LiveAt, ProgramOp, ForwardProgramOp, RollbackProgram, First, Write, Mentions,
      ForwardedOps, FirstForward;
    ForwardReads(s.journal);
    LeftTempWhere(z, s);
    var v := Checked(s.journal);
    if v.mode.Forwarding? {
      var op := ForwardProgramOp(v.forward);
      assert s.live.world.temps + {op.file} == s.live.world.temps;
    }
  }

  lemma {:induction false} LeftTempForever(z: Frozen, s: State, actions: seq<Action>)
    requires WellFrozen(z) && Held(z, s) && s.live.world.temps != {}
    ensures Stalled(s, Run(z, s, actions))
    decreases |actions|
  {
    hide WellFrozen, Held, Step;
    if actions != [] {
      LeftTempStalls(z, s, actions[0]);
      LeftTempForever(z, Step(z, s, actions[0]), actions[1..]);
    }
  }

  // ----- Which states are stuck -----

  /** No sequence of calls, in any environment and with any faults, changes more than a health. */
  ghost predicate Stuck(z: Frozen, s: State) {
    forall actions: seq<Action> :: Stalled(s, Run(z, s, actions))
  }

  /** A torn or closed journal, a temporary name left behind, or a blocked operation in flight that is not
      in effect. */
  predicate AtEnd(z: Frozen, s: State)
    requires Accepted(s.journal)
  {
    var v := Checked(s.journal);
    || s.torn || v.expected.XClosed? || s.live.world.temps != {}
    || (v.expected.XOpObserve? && Blocked(z, ProgramOp(v.activation))
        && !Observe(z, s.live, ProgramOp(v.activation)).SeesDesired?)
  }

  /** Those are exactly the states in which a transaction is stuck. */
  lemma StuckIff(z: Frozen, s: State)
    requires WellFrozen(z) && Held(z, s)
    ensures Stuck(z, s) <==> AtEnd(z, s)
  {
    hide WellFrozen, Accepted, Checked, Sound, Blocked, Run;
    if AtEnd(z, s) {
      forall actions: seq<Action> ensures Stalled(s, Run(z, s, actions)) {
        AtEndStalls(z, s, actions);
      }
    } else {
      var actions := GetMoving(z, s);
      assert !Stalled(s, Run(z, s, actions));
    }
  }

  lemma AtEndStalls(z: Frozen, s: State, actions: seq<Action>)
    requires WellFrozen(z) && Held(z, s) && AtEnd(z, s)
    ensures Stalled(s, Run(z, s, actions))
  {
    hide WellFrozen, Accepted, Checked, Sound, Blocked, Run, LiveAt;
    AcceptedShape(s.journal);
    var v := Checked(s.journal);
    if s.torn {
      UnreadableForever(z, s, actions);
    } else if v.expected.XClosed? {
      ClosedForever(z, s, actions);
    } else if s.live.world.temps != {} {
      LeftTempForever(z, s, actions);
    } else {
      BlockedForever(z, s, ProgramOp(v.activation), actions);
    }
  }

  lemma {:induction false} ClosedForever(z: Frozen, s: State, actions: seq<Action>)
    requires WellFrozen(z) && Held(z, s) && Checked(s.journal).expected.XClosed?
    ensures Stalled(s, Run(z, s, actions))
    decreases |actions|
  {
    hide WellFrozen, Accepted, Checked, LiveAt, ResumeCall, RollbackCall, ForwardCall;
    if actions != [] {
      var s1 := Step(z, s, actions[0]);
      match actions[0] {
        case Resume(e, f) => ClosedStays(z, s, e, f);
        case Rollback(e, f) => ClosedStays(z, s, e, f);
        case ForwardOld(e, f) => ClosedStays(z, s, e, f);
        case HealthDrift(h) => DriftInv(z, s, s.journal, h);
      }
      ClosedForever(z, s1, actions[1..]);
    }
  }

  lemma ClosedStays(z: Frozen, s: State, e: Env, f: Fault)
    requires Held(z, s) && Checked(s.journal).expected.XClosed?
    ensures ResumeCall(z, s, e, f) == s && RollbackCall(z, s, e, f) == s && ForwardCall(z, s, e, f) == s
  {
    hide Accepted, Checked, LiveAt, Mentions, CompletedOps, CompensatedOps, ForwardedOps, First, FirstForward;
    AcceptedShape(s.journal);
  }

  /** Elsewhere a drift of the container's health and one fault-free call move the journal. */
  lemma GetMoving(z: Frozen, s: State) returns (actions: seq<Action>)
    requires WellFrozen(z) && Held(z, s) && !AtEnd(z, s)
    ensures Run(z, s, actions).journal != s.journal
  {
    hide WellFrozen, Accepted, Checked, Sound, Blocked, LiveAt, ResumeCall, RollbackCall, ForwardCall, ProgramOp;
    var v := Checked(s.journal);
    AcceptedShape(s.journal);
    NotAmbiguous(z, s);
    var h := if v.mode.Forwarding? then z.container.health else Healthy;
    var e := Env(h, 0, true, true);
    var s1 := Step(z, s, HealthDrift(h));
    DriftInv(z, s, s.journal, h);
    var a: Action;
    if v.mode.Activation? && !PastWriter(v) {
      a := Resume(e, NoFault);
      ResumeMoves(z, s1, e);
    } else if v.mode.Rollback? {
      a := Action.Rollback(e, NoFault);
      RollbackMoves(z, s1, e);
    } else {
      a := ForwardOld(e, NoFault);
      ForwardMoves(z, s1, e);
    }
    actions := [HealthDrift(h), a];
    assert actions[1..] == [a] && actions[1..][1..] == [];
    assert Run(z, Step(z, s1, a), []) == Step(z, s1, a);
    assert Run(z, s1, [a]) == Step(z, s1, a);
  }

  lemma NotAmbiguous(z: Frozen, s: State)
    requires Held(z, s)
    ensures !Checked(s.journal).expected.XTerminalAmbiguous?
  {
    hide Accepted, Checked;
  }

  lemma ResumeMoves(z: Frozen, s: State, e: Env)
    requires WellFrozen(z) && Ready(z, s) && CanonicalHealthy(s.live) && e.health.Healthy?
    requires Checked(s.journal).mode.Activation? && !PastWriter(Checked(s.journal)) && !AtEnd(z, s)
    ensures ResumeCall(z, s, e, NoFault).journal != s.journal
  {
    hide WellFrozen, Blocked, Accepted, Checked, Midway, LiveAt, ProgramOp, First, RollbackProgram, Select,
      ResumeDispatched;
    var v := Checked(s.journal);
    AcceptedShape(s.journal);
    NotAmbiguous(z, s);
    if v.expected.XOpObserve? {
      if Blocked(z, ProgramOp(v.activation)) {
        DesiredMoves(z, s, ProgramOp(v.activation), e);
      } else {
        OperationSettles(z, s, e);
      }
    }
  }

  lemma DesiredMoves(z: Frozen, s: State, op: Op, e: Env)
    requires s.journal != [] && Observe(z, s.live, op).SeesDesired?
    ensures ResumeDispatched(z, s, op, e, NoFault).journal != s.journal
  {
  }

  lemma RollbackMoves(z: Frozen, s: State, e: Env)
    requires WellFrozen(z) && Ready(z, s) && CanRollBack(Checked(s.journal)) && Checked(s.journal).mode.Rollback?
    ensures RollbackCall(z, s, e, NoFault).journal != s.journal
  {
    hide WellFrozen, Accepted, Checked, Midway, LiveAt, RollbackCall, Select, RollbackProgram, ProgramOp;
    StillToDo(z, s);
    if RollbackDistance(Checked(s.journal)) > 1 {
      RollbackProgress(z, s, e);
    } else {
      RollbackAppends(z, s, e);
    }
  }

  lemma RollbackAppends(z: Frozen, s: State, e: Env)
    requires Ready(z, s) && Checked(s.journal).mode.Rollback? && CanRollBack(Checked(s.journal))
    requires RollbackDistance(Checked(s.journal)) <= 1
    ensures RollbackCall(z, s, e, NoFault).journal != s.journal
  {
    hide Accepted, Checked, Midway, Mentions, CompletedOps, CompensatedOps, RollbackProgram, ProgramOp, First, FullOld;
    RollbackReads(s.journal);
  }

  lemma ForwardMoves(z: Frozen, s: State, e: Env)
    requires WellFrozen(z) && Ready(z, s) && CanForward(Checked(s.journal))
    requires e == Env(z.container.health, 0, true, true) || e == Env(Healthy, 0, true, true)
    requires Checked(s.journal).mode.Forwarding? ==> Cooperates(z, s.live, e)
    ensures ForwardCall(z, s, e, NoFault).journal != s.journal
  {
    hide WellFrozen, Accepted, Checked, Midway, LiveAt;
    if Checked(s.journal).mode.Forwarding? {
      ForwardProgress(z, s, e);
    } else {
      ForwardReads(s.journal);
    }
  }
}
