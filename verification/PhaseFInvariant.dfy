/** The invariant that ties the journal to the host, and the proof that every driver call, under every
    fault, keeps it. */
module PhaseFInvariant {
  import opened PhaseFWorld
  import opened PhaseFBackend
  import opened PhaseFProgram
  import opened PhaseFJournal
  import opened PhaseFDriver
  import opened PhaseFForwardOld

  // ----- Between a dispatch and its observation -----

  /** A publish was cut after its temporary name was created and before the rename. */
  ghost predicate TempLeft(z: Frozen, l: Live, f: FileId, s: Done) {
    l.world.temps == {f} && Midway(z, l.(world := l.world.(temps := {})), s)
  }

  ghost predicate InFlight(z: Frozen, l: Live, s: Done, op: Op) {
    || Midway(z, l, s)
    || Midway(z, l, With(s, op))
    || (op.PublishFile? && TempLeft(z, l, op.file, s))
  }

  ghost predicate Undoing(z: Frozen, l: Live, s: Done, op: Op) {
    || Midway(z, l, s)
    || Midway(z, l, Without(s, op))
    || (op.PublishFile? && TempLeft(z, l, op.file, s) && l.world.files.Get(op.file) != z.files.Get(op.file))
  }

  ghost predicate Restoring(z: Frozen, l: Live, n: nat) {
    var op := ForwardProgramOp(n);
    || Midway(z, l, ForwardDone(n))
    || Midway(z, l, ForwardDone(n + 1))
    || (op.RestoreOldFile? && TempLeft(z, l, op.file, ForwardDone(n))
        && z.files.Get(op.file).Present? && l.world.files.Get(op.file) != z.files.Get(op.file))
  }

  // ----- The invariant -----

  /** Where the transition scan stands at the end of an accepted journal. */
  function Checked(j: seq<Record>): Scan
    requires Accepted(j)
  {
    ScanAll(j).value
  }

  ghost predicate LiveAt(z: Frozen, l: Live, v: Scan) {
    && v.activation <= SIZE
    && !v.expected.XTerminalAmbiguous?
    && match v.mode
       case Activation =>
         if v.expected.XOpObserve? then
           v.activation < SIZE && InFlight(z, l, Prefix(v.activation), ProgramOp(v.activation))
         else Midway(z, l, Prefix(v.activation))
       case Rollback =>
         && v.program == RollbackProgram(First(v.activation)) && v.rollback <= |v.program|
         && (if v.expected.XCompObserve? then
               v.rollback < |v.program|
               && Undoing(z, l, Remaining(v.activation, v.rollback), v.program[v.rollback])
             else Midway(z, l, Remaining(v.activation, v.rollback)))
       case Forwarding =>
         && (v.forward >= 10 ==> !NeedReload(l.world))
         && (if v.expected.XForwardObserve? then Restoring(z, l, v.forward)
             else Midway(z, l, ForwardDone(v.forward)))
  }

  ghost predicate Sound(z: Frozen, s: State, j: seq<Record>)
    requires Accepted(j)
  {
    var v := Checked(j);
    && LiveAt(z, s.live, v)
    && (v.expected.XClosed? ==> Last(j).kind.TerminalOld?)
    && s.writes <= 1 && (s.writes == 1 ==> PastWriter(v))
  }

  /** A completed rollback was closed as ambiguous, which no reader accepts. */
  predicate Poisoned(j: seq<Record>) {
    && |j| > 1
    && var before := j[..|j| - 1];
    && Accepted(before) && Checked(before).mode.Rollback? && Checked(before).expected.XTerminalOld?
    && j == Append(before, TerminalAmbiguous, NoStep)
  }

  /** The journal is accepted and the host is where it says. */
  ghost predicate Held(z: Frozen, s: State) {
    Accepted(s.journal) && Sound(z, s, s.journal)
  }

  ghost predicate Inv(z: Frozen, s: State) {
    || Held(z, s)
    || (Poisoned(s.journal) && Sound(z, s, s.journal[..|s.journal| - 1]))
  }

  lemma PoisonedIsRejected(j: seq<Record>)
    requires Poisoned(j)
    ensures !Accepted(j)
  {
    var before := j[..|j| - 1];
    AcceptedView(before);
    AppendScan(before, TerminalAmbiguous, NoStep);
  }

  lemma InitialInv(z: Frozen, s: State)
    requires Initial(z, s)
    ensures Held(z, s)
  {
    assert s.journal[0] == GEN0 && LinkedAt(s.journal, 0);
    assert forall r | r in s.journal :: r == GEN0;
  }

  // ----- Writing one record -----

  function Next(j: seq<Record>, kind: Kind, step: StepId): Record
    requires j != []
  {
    Record(|j|, Sha(Last(j)), kind, step)
  }

  /** Without a journal fault the transition scan moves to `v'`. */
  ghost predicate Moves(s: State, s': State, f: Fault, v': Scan) {
    !f.LosesWrite? && !f.TearsFirst? ==> Accepted(s'.journal) && Checked(s'.journal) == v' && s'.torn == s.torn
  }

  /** A write keeps the invariant when the transition scan takes the record and the host fits both before it
      and after it. */
  lemma WriteSound(z: Frozen, s: State, kind: Kind, step: StepId, f: Fault, v': Scan)
    requires Held(z, s)
    requires Parses(Next(s.journal, kind, step))
    requires ScanStep(Checked(s.journal), Next(s.journal, kind, step)) == Some(v')
    requires LiveAt(z, s.live, v') && (v'.expected.XClosed? ==> kind.TerminalOld?)
    requires s.writes == 1 ==> PastWriter(v')
    ensures Held(z, Write(s, kind, step, f))
    ensures Moves(s, Write(s, kind, step, f), f, v')
  {
    hide ScanStep, LiveAt;
    AppendAccepted(s.journal, kind, step);
    AppendScan(s.journal, kind, step);
  }

  lemma AcceptedShape(j: seq<Record>)
    requires Accepted(j)
    ensures j != [] && Shape(Checked(j), Last(j))
  {
    AcceptedView(j);
  }

  // ----- Resuming the activation -----

  lemma ResumeInv(z: Frozen, s: State, e: Env, f: Fault)
    requires WellFrozen(z) && Held(z, s)
    ensures Held(z, ResumeCall(z, s, e, f))
  {
    hide ProgramOp, Prefix, First, Select, RollbackProgram, Midway, InFlight, LiveAt, ScanStep, Write, ResumeWriter,
      ResumeDispatched;
    var v := Checked(s.journal);
    AcceptedShape(s.journal);
    if Readable(s) {
      match v.expected
      case XOpIntent =>
        if v.activation > 0 { PositionsInverse(v.activation - 1); }
        IntentInv(z, s, f);
      case XWriterIntent =>
        PositionsInverse(SIZE - 1);
        WriterIntentInv(z, s, f);
      case XOpDispatched => DispatchInv(z, s, f);
      case XOpObserve => ResumeDispatchedInv(z, s, e, f);
      case XWriterDispatched => ResumeWriterInv(z, s, f);
      case _ =>
    }
  }

  lemma IntentInv(z: Frozen, s: State, f: Fault)
    requires Held(z, s) && Checked(s.journal).expected.XOpIntent?
    ensures Held(z, Write(s, OpIntent, Operation(ProgramOp(Checked(s.journal).activation)), f))
    ensures Moves(s, Write(s, OpIntent, Operation(ProgramOp(Checked(s.journal).activation)), f), f,
                  Checked(s.journal).(expected := XOpDispatched))
  {
    hide ProgramOp, Prefix, First, Select, RollbackProgram, Midway, Write, Accepted, Checked;
    var v := Checked(s.journal);
    AcceptedShape(s.journal);
    WriteSound(z, s, OpIntent, Operation(ProgramOp(v.activation)), f, v.(expected := XOpDispatched));
  }

  lemma WriterIntentInv(z: Frozen, s: State, f: Fault)
    requires Held(z, s) && Checked(s.journal).expected.XWriterIntent?
    ensures Held(z, Write(s, WriterIntent, NoStep, f))
    ensures Moves(s, Write(s, WriterIntent, NoStep, f), f, Checked(s.journal).(expected := XWriterDispatched))
  {
    hide ProgramOp, Prefix, First, Select, RollbackProgram, Midway, Write, Accepted, Checked;
    var v := Checked(s.journal);
    AcceptedShape(s.journal);
    WriteSound(z, s, WriterIntent, NoStep, f, v.(expected := XWriterDispatched));
  }

  lemma DispatchInv(z: Frozen, s: State, f: Fault)
    requires Held(z, s) && Checked(s.journal).expected.XOpDispatched?
    ensures Held(z, Write(s, OpDispatched, Operation(ProgramOp(Checked(s.journal).activation)), f))
    ensures Moves(s, Write(s, OpDispatched, Operation(ProgramOp(Checked(s.journal).activation)), f), f,
                  Checked(s.journal).(expected := XOpObserve))
  {
    hide ProgramOp, Prefix, First, Select, RollbackProgram, Midway, Write, Accepted, Checked;
    var v := Checked(s.journal);
    AcceptedShape(s.journal);
    WriteSound(z, s, OpDispatched, Operation(ProgramOp(v.activation)), f, v.(expected := XOpObserve));
  }

  lemma ResumeWriterInv(z: Frozen, s: State, f: Fault)
    requires Held(z, s)
    requires Checked(s.journal).expected.XWriterDispatched?
    ensures Held(z, ResumeWriter(s, f))
  {
    hide ProgramOp, Prefix, First, Select, RollbackProgram, Midway, Accepted, Checked;
    var v := Checked(s.journal);
    AcceptedShape(s.journal);
    assert s.writes == 0;
    WriteSound(z, s, WriterDispatched, NoStep, f, v.(expected := XReturnedOrForward));
    if !f.LosesWrite? && !f.TearsFirst? && !f.StopsAfterFirst? {
      var invoked := Write(s, WriterDispatched, NoStep, f).(writes := s.writes + 1);
      WriterReturnedInv(z, invoked, f);
    }
  }

  lemma WriterReturnedInv(z: Frozen, s: State, f: Fault)
    requires Held(z, s)
    requires Checked(s.journal).expected.XReturnedOrForward?
    ensures Held(z, Write(s, WriterReturned, NoStep, f)) && Held(z, s.(torn := true))
  {
    hide ProgramOp, Prefix, First, Select, RollbackProgram, Midway, Accepted, Checked;
    var v := Checked(s.journal);
    AcceptedShape(s.journal);
    WriteSound(z, s, WriterReturned, NoStep, f, v.(expected := XPostWriter));
  }

  /** A call cut by a fault leaves the host before the operation, after it, or with a temporary name. */
  lemma DispatchFaults(z: Frozen, l: Live, s: Done, op: Op, e: Env, f: Fault)
    requires WellFrozen(z) && Midway(z, l, s) && Enabled(s, op) && !op.StartContainer?
    requires Advances(z, l, s, op, e) && Observe(z, l, op).SeesOld?
    ensures InFlight(z, Faulted(Refresh(z, l, op), Apply(z, Refresh(z, l, op), op, e), PublishedFile(op), f).live, s, op)
  {
    hide WellFrozen;
    var now := Refresh(z, l, op);
    var r := Apply(z, now, op, e);
    RefreshKeeps(z, l, s, op);
    if !Blocked(z, op) { LostReturn(z, now, s, op, r.live); }
    if f.LeavesTemp? && op.PublishFile? {
      var left := now.(world := now.world.(temps := now.world.temps + {op.file}));
      assert left.(world := left.world.(temps := {})) == now;
    }
  }

  /** What the backend stores about the target only matters once the target runs. */
  lemma LostReturn(z: Frozen, now: Live, s: Done, op: Op, after: Live)
    requires Midway(z, now, s) && Enabled(s, op) && !op.StartContainer?
    requires Midway(z, Refresh(z, after, op), With(s, op))
    requires !op.CreateStopped? && !op.SetTargetPolicy? ==> after.observed == now.observed
    ensures Midway(z, now.(world := after.world), With(s, op))
    ensures Midway(z, after, With(s, op))
  {
    assert With(s, op).running ==> Refresh(z, after, op) == after;
  }

  /** Starting the target: it runs whether or not it becomes healthy. */
  lemma StartFaults(z: Frozen, l: Live, s: Done, e: Env, f: Fault)
    requires WellFrozen(z) && Midway(z, l, s) && Enabled(s, StartContainer)
    ensures
      var now := Refresh(z, l, StartContainer);
      var r := Faulted(now, Apply(z, now, StartContainer, e), None, f);
      && Observe(z, l, StartContainer).SeesOld?
      && InFlight(z, r.live, s, StartContainer)
      && (r.returned ==> Observe(z, r.live, StartContainer).SeesDesired?
                         && Midway(z, Refresh(z, r.live, StartContainer), With(s, StartContainer)))
  {
    hide WellFrozen;
    var now := Refresh(z, l, StartContainer);
    RefreshKeeps(z, l, s, StartContainer);
    var r := Apply(z, now, StartContainer, e).live;
    var lost := now.(world := r.world);
    Frame(z, l, s, r, With(s, StartContainer));
    Frame(z, l, s, lost, With(s, StartContainer));
    Frame(z, l, s, Refresh(z, r, StartContainer), With(s, StartContainer));
  }

  /** The host after an operation has been applied, however the call ended. */
  lemma DispatchLive(z: Frozen, l: Live, s: Done, op: Op, e: Env, f: Fault)
    requires WellFrozen(z) && InFlight(z, l, s, op) && Enabled(s, op)
    ensures
      var seen := Observe(z, l, op);
      var now := Refresh(z, l, op);
      && InFlight(z, now, s, op)
      && (seen.SeesDesired? ==> Midway(z, now, With(s, op)))
      && (seen.SeesOld? ==>
            var r := Faulted(now, Apply(z, now, op, e), PublishedFile(op), f);
            && InFlight(z, r.live, s, op)
            && (r.returned ==> Observe(z, r.live, op).SeesDesired? && Midway(z, Refresh(z, r.live, op), With(s, op))
                               && !Blocked(z, op)))
  {
    if Midway(z, l, s) {
      RefreshKeeps(z, l, s, op);
      if op.StartContainer? {
        StartFaults(z, l, s, e, f);
      } else {
        ForwardStep(z, l, s, op, e);
        if Observe(z, l, op).SeesOld? { DispatchFaults(z, l, s, op, e, f); }
      }
    } else if Midway(z, l, With(s, op)) {
      AlreadyApplied(z, l, s, op);
      RefreshKeeps(z, l, With(s, op), op);
    } else {
      assert op.file in l.world.temps;
    }
  }

  lemma ResumeDispatchedInv(z: Frozen, s: State, e: Env, f: Fault)
    requires WellFrozen(z) && Held(z, s)
    requires Checked(s.journal).expected.XOpObserve?
    ensures
      var op := ProgramOp(Checked(s.journal).activation);
      Held(z, ResumeDispatched(z, s, op, e, f))
  {
    hide ProgramOp, Prefix, First, Select, RollbackProgram, Midway, Accepted, Checked, Observe, Refresh, Apply,
      Enabled, Write, Faulted;
    var v := Checked(s.journal);
    AcceptedShape(s.journal);
    var k := v.activation;
    var op := ProgramOp(k);
    ProgramEnabled(k);
    DispatchLive(z, s.live, Prefix(k), op, e, f);
    var now := s.(live := Refresh(z, s.live, op));
    match Observe(z, s.live, op)
    case SeesAmbiguous =>
    case SeesDesired => ObservedInv(z, s, now.live, f);
    case SeesOld =>
      var r := Faulted(now.live, Apply(z, now.live, op, e), PublishedFile(op), f);
      if r.returned {
        ObservedInv(z, s, Refresh(z, r.live, op), f);
      }
  }

  function Observed(v: Scan): Scan {
    v.(completed := v.completed + [ProgramOp(v.activation)], activation := v.activation + 1,
       expected := if v.activation + 1 < SIZE then XOpIntent else XWriterIntent)
  }

  lemma ScanObserved(v: Scan, last: Record, r: Record)
    requires Shape(v, last) && v.expected.XOpObserve? && r.sequence > 0 && r.predecessor.Sha?
    requires r.kind == OpObserved(SeesDesired) && r.step == Operation(ProgramOp(v.activation))
    ensures Parses(r) && ScanStep(v, r) == Some(Observed(v))
    ensures v.mode.Activation? && v.activation < SIZE
  {
    hide ProgramOp, First, Select, RollbackProgram;
  }

  lemma LiveObserved(z: Frozen, l: Live, v: Scan)
    requires v.mode.Activation? && v.expected.XOpObserve? && v.activation < SIZE
    requires InFlight(z, l, Prefix(v.activation), ProgramOp(v.activation))
    requires Midway(z, l, With(Prefix(v.activation), ProgramOp(v.activation)))
    ensures LiveAt(z, l, v) && LiveAt(z, l, Observed(v))
  {
    hide Midway, InFlight, ProgramOp;
  }

  lemma ObservedInv(z: Frozen, s: State, l: Live, f: Fault)
    requires Held(z, s) && Checked(s.journal).expected.XOpObserve?
    requires
      var k := Checked(s.journal).activation;
      k < SIZE && Midway(z, l, With(Prefix(k), ProgramOp(k))) && InFlight(z, l, Prefix(k), ProgramOp(k))
    ensures
      var op := ProgramOp(Checked(s.journal).activation);
      var s' := Write(s.(live := l), OpObserved(SeesDesired), Operation(op), f);
      Held(z, s') && Moves(s, s', f, Observed(Checked(s.journal)))
  {
    hide ScanStep, Parses, LiveAt, Prefix, Shape, ProgramOp, First, Select, RollbackProgram, Midway, Accepted,
      Checked, Write;
    var v := Checked(s.journal);
    AcceptedShape(s.journal);
    var op := ProgramOp(v.activation);
    ScanObserved(v, Last(s.journal), Next(s.journal, OpObserved(SeesDesired), Operation(op)));
    LiveObserved(z, l, v);
    WriteSound(z, s.(live := l), OpObserved(SeesDesired), Operation(op), f, Observed(v));
  }

  // ----- Rolling back -----

  /** What `RollbackCall` filters out of an accepted journal. */
  lemma RollbackReads(j: seq<Record>)
    requires Accepted(j)
    ensures
      var v := Checked(j);
      && j != [] && Shape(v, Last(j)) && v.activation <= SIZE
      && CompletedOps(j) == First(v.activation)
      && (Mentions(j, WriterDispatched) <==> PastWriter(v))
      && (Mentions(j, RollbackStarted) <==> v.mode.Rollback?)
      && (v.mode.Rollback? ==>
            v.activation > 0 && v.program == RollbackProgram(First(v.activation))
            && v.rollback <= |v.program| && CompensatedOps(j) == v.program[..v.rollback])
  {
    hide ProgramOp, Select, RollbackProgram, Mentions, CompletedOps, CompensatedOps, ForwardedOps;
    AcceptedView(j);
  }

  /** Every compensation is done and the host is not seen as fully old. */
  predicate ClosesAmbiguous(z: Frozen, s: State, f: Fault) {
    && Readable(s) && Checked(s.journal).mode.Rollback? && Checked(s.journal).expected.XTerminalOld?
    && !FullOld(z, s.live.world) && !f.LosesWrite? && !f.TearsFirst?
  }

  lemma RollbackInv(z: Frozen, s: State, e: Env, f: Fault)
    requires WellFrozen(z) && Held(z, s)
    ensures
      var s' := RollbackCall(z, s, e, f);
      Inv(z, s') && (if ClosesAmbiguous(z, s, f) then Poisoned(s'.journal) else Held(z, s'))
  {
    hide ProgramOp, Prefix, First, Select, RollbackProgram, Midway, InFlight, Undoing, LiveAt, ScanStep, Write,
      Mentions, CompletedOps, CompensatedOps, CompensateDispatched, CompensateNext;
    var v := Checked(s.journal);
    RollbackReads(s.journal);
    if Readable(s) && !PastWriter(v) {
      if v.mode.Activation? {
        if v.activation > 0 && !v.expected.XOpObserve? && !v.expected.XClosed? && !v.expected.XTerminalAmbiguous? {
          RollbackStartInv(z, s, f);
        }
      } else {
        match v.expected
        case XCompIntent => CompensateNextInv(z, s, f);
        case XTerminalOld => CompensateNextInv(z, s, f);
        case XCompDispatched => CompDispatchInv(z, s, f);
        case XCompObserve => CompensateDispatchedInv(z, s, e, f);
        case _ =>
      }
    }
  }

  function RolledBack(v: Scan): Scan {
    v.(mode := Mode.Rollback, expected := XCompIntent, program := RollbackProgram(v.completed), rollback := 0)
  }

  lemma RollbackStartInv(z: Frozen, s: State, f: Fault)
    requires Held(z, s)
    requires
      var v := Checked(s.journal);
      && v.mode.Activation? && v.activation > 0 && !PastWriter(v)
      && !v.expected.XOpObserve? && !v.expected.XClosed? && !v.expected.XTerminalAmbiguous?
    ensures Held(z, Write(s, RollbackStarted, NoStep, f))
    ensures Moves(s, Write(s, RollbackStarted, NoStep, f), f, RolledBack(Checked(s.journal)))
  {
    hide ProgramOp, Prefix, Select, RollbackProgram, Midway, Accepted, Checked, Write;
    var v := Checked(s.journal);
    AcceptedShape(s.journal);
    WriteSound(z, s, RollbackStarted, NoStep, f,
               RolledBack(v));
  }

  lemma CompensateNextInv(z: Frozen, s: State, f: Fault)
    requires Held(z, s) && Checked(s.journal).mode.Rollback?
    requires Checked(s.journal).expected.XCompIntent? || Checked(s.journal).expected.XTerminalOld?
    requires Checked(s.journal).rollback <= |Checked(s.journal).program|
    ensures
      var v := Checked(s.journal);
      var s' := CompensateNext(z, s, v.program, v.program[..v.rollback], f);
      if v.expected.XCompIntent? then Held(z, s') && Moves(s, s', f, v.(expected := XCompDispatched))
      else if FullOld(z, s.live.world) then Held(z, s') && Moves(s, s', f, v.(expected := XClosed))
      else Inv(z, s') && (Held(z, s') || Poisoned(s'.journal)) && (Poisoned(s'.journal) <==> !f.LosesWrite? && !f.TearsFirst?)
  {
    hide ProgramOp, Prefix, Remaining, First, Select, RollbackProgram, Midway, Accepted, Checked, FullOld;
    var v := Checked(s.journal);
    AcceptedShape(s.journal);
    if v.expected.XCompIntent? {
      WriteSound(z, s, CompIntent, Operation(v.program[v.rollback]), f, v.(expected := XCompDispatched));
    } else if FullOld(z, s.live.world) {
      WriteSound(z, s, TerminalOld, NoStep, f, v.(expected := XClosed));
    } else {
      assert Append(s.journal, TerminalAmbiguous, NoStep)[..|s.journal|] == s.journal;
    }
  }

  lemma CompDispatchInv(z: Frozen, s: State, f: Fault)
    requires Held(z, s)
    requires Checked(s.journal).expected.XCompDispatched? && Checked(s.journal).rollback < |Checked(s.journal).program|
    ensures
      var v := Checked(s.journal);
      Held(z, Write(s, CompDispatched, Operation(v.program[v.rollback]), f))
      && Moves(s, Write(s, CompDispatched, Operation(v.program[v.rollback]), f), f, v.(expected := XCompObserve))
  {
    hide ProgramOp, Prefix, Remaining, First, Select, RollbackProgram, Midway, Accepted, Checked, Write;
    var v := Checked(s.journal);
    AcceptedShape(s.journal);
    WriteSound(z, s, CompDispatched, Operation(v.program[v.rollback]), f, v.(expected := XCompObserve));
  }

  lemma CompensateDispatchedInv(z: Frozen, s: State, e: Env, f: Fault)
    requires WellFrozen(z) && Held(z, s)
    requires Checked(s.journal).expected.XCompObserve? && Checked(s.journal).rollback < |Checked(s.journal).program|
    ensures
      var v := Checked(s.journal);
      Held(z, CompensateDispatched(z, s, v.program[v.rollback], e, f))
  {
    hide ProgramOp, Prefix, Remaining, First, Select, RollbackProgram, Midway, Accepted, Checked,
      ObserveCompensation, Compensate, Undoable, Write, Faulted;
    var v := Checked(s.journal);
    AcceptedShape(s.journal);
    var op := v.program[v.rollback];
    RollbackUndoable(v.activation, v.rollback);
    CompensateLive(z, s.live, Remaining(v.activation, v.rollback), op, e, f);
    match ObserveCompensation(z, s.live, op)
    case SeesAmbiguous =>
    case SeesOld => CompensatedInv(z, s, s.live, f);
    case SeesDesired =>
      var r := Faulted(s.live, Compensate(z, s.live, op, e), CompensatedFile(z, op), f);
      if r.returned {
        CompensatedInv(z, s, r.live, f);
      }
  }

  function Compensated(v: Scan): Scan {
    v.(rollback := v.rollback + 1, expected := if v.rollback + 1 < |v.program| then XCompIntent else XTerminalOld)
  }

  ghost predicate CompensatedAt(z: Frozen, l: Live, v: Scan) {
    && v.activation <= SIZE && v.program == RollbackProgram(First(v.activation)) && v.rollback < |v.program|
    && Midway(z, l, Without(Remaining(v.activation, v.rollback), v.program[v.rollback]))
  }

  lemma CompensatedInv(z: Frozen, s: State, l: Live, f: Fault)
    requires Held(z, s)
    requires Checked(s.journal).expected.XCompObserve? && CompensatedAt(z, l, Checked(s.journal))
    ensures
      var v := Checked(s.journal);
      var s' := Write(s.(live := l), CompObserved(SeesOld), Operation(v.program[v.rollback]), f);
      Held(z, s') && Moves(s, s', f, Compensated(v))
  {
    hide ProgramOp, Prefix, First, Select, RollbackProgram, Midway, Accepted, Checked, Write;
    var v := Checked(s.journal);
    AcceptedShape(s.journal);
    WriteSound(z, s.(live := l), CompObserved(SeesOld), Operation(v.program[v.rollback]), f,
               Compensated(v));
  }

  /** The host after a compensation, however the call ended. */
  lemma CompensateLive(z: Frozen, l: Live, s: Done, op: Op, e: Env, f: Fault)
    requires WellFrozen(z) && Undoing(z, l, s, op) && Undoable(s, op)
    ensures
      var seen := ObserveCompensation(z, l, op);
      && (seen.SeesOld? ==> Midway(z, l, Without(s, op)))
      && (seen.SeesDesired? ==>
            var r := Faulted(l, Compensate(z, l, op, e), CompensatedFile(z, op), f);
            && Undoing(z, r.live, s, op)
            && (r.returned ==> ObserveCompensation(z, r.live, op).SeesOld? && Midway(z, r.live, Without(s, op))))
  {
    if Midway(z, l, s) {
      CompensationStep(z, l, s, op, e);
      if ObserveCompensation(z, l, op).SeesDesired? { CompensationFaults(z, l, s, op, e, f); }
    } else if Midway(z, l, Without(s, op)) {
      AlreadyCompensated(z, l, s, op, e);
    } else {
      assert op.file in l.world.temps;
    }
  }

  lemma CompensationFaults(z: Frozen, l: Live, s: Done, op: Op, e: Env, f: Fault)
    requires WellFrozen(z) && Midway(z, l, s) && Undoable(s, op)
    requires Retreats(z, l, s, op, e) && ObserveCompensation(z, l, op).SeesDesired?
    ensures Undoing(z, Faulted(l, Compensate(z, l, op, e), CompensatedFile(z, op), f).live, s, op)
  {
    hide WellFrozen;
    var r := Compensate(z, l, op, e).live;
    assert Midway(z, l.(world := r.world), Without(s, op));
    if f.LeavesTemp? && op.PublishFile? {
      var left := l.(world := l.world.(temps := l.world.temps + {op.file}));
      assert left.(world := left.world.(temps := {})) == l;
    }
  }

  // ----- Forward to old -----

  /** What `ForwardCall` filters out of an accepted journal. */
  lemma ForwardReads(j: seq<Record>)
    requires Accepted(j)
    ensures
      var v := Checked(j);
      && j != [] && Shape(v, Last(j))
      && (Mentions(j, WriterDispatched) <==> PastWriter(v))
      && (Mentions(j, ForwardStarted) <==> v.mode.Forwarding?)
      && (v.mode.Forwarding? ==> v.forward <= FORWARD_SIZE && ForwardedOps(j) == FirstForward(v.forward))
  {
    hide ProgramOp, Select, RollbackProgram, Mentions, CompletedOps, CompensatedOps, ForwardedOps;
    AcceptedView(j);
  }

  lemma ForwardInv(z: Frozen, s: State, e: Env, f: Fault)
    requires WellFrozen(z) && Held(z, s)
    ensures Held(z, ForwardCall(z, s, e, f))
  {
    hide ProgramOp, Prefix, First, Select, RollbackProgram, Midway, InFlight, Undoing, Restoring, LiveAt, ScanStep,
      Write,
      Mentions, ForwardedOps, ForwardInFlight, ForwardNext, FirstForward, ForwardProgramOp;
    var v := Checked(s.journal);
    ForwardReads(s.journal);
    if Readable(s) && PastWriter(v) {
      match v.expected
      case XReturnedOrForward => ForwardStartInv(z, s, f);
      case XPostWriter => ForwardStartInv(z, s, f);
      case XForwardIntent => ForwardNextInv(z, s, f);
      case XTerminalOld => ForwardNextInv(z, s, f);
      case XForwardDispatched => ForwardDispatchInv(z, s, f);
      case XForwardObserve => ForwardInFlightInv(z, s, e, f);
      case _ =>
    }
  }

  lemma ForwardStartInv(z: Frozen, s: State, f: Fault)
    requires Held(z, s)
    requires Checked(s.journal).expected.XReturnedOrForward? || Checked(s.journal).expected.XPostWriter?
    ensures Held(z, Write(s, ForwardStarted, NoStep, f))
    ensures Moves(s, Write(s, ForwardStarted, NoStep, f), f,
                  Checked(s.journal).(mode := Forwarding, expected := XForwardIntent))
  {
    hide ProgramOp, Prefix, First, Select, RollbackProgram, Midway, Accepted, Checked, Write;
    var v := Checked(s.journal);
    AcceptedShape(s.journal);
    ForwardBegins();
    WriteSound(z, s, ForwardStarted, NoStep, f, v.(mode := Forwarding, expected := XForwardIntent));
  }

  lemma ForwardNextInv(z: Frozen, s: State, f: Fault)
    requires Held(z, s) && Checked(s.journal).mode.Forwarding?
    requires Checked(s.journal).expected.XForwardIntent? || Checked(s.journal).expected.XTerminalOld?
    ensures Held(z, ForwardNext(s, Checked(s.journal).forward, f))
    ensures
      var v := Checked(s.journal);
      Moves(s, ForwardNext(s, v.forward, f), f,
            v.(expected := if v.forward == FORWARD_SIZE then XClosed else XForwardDispatched))
  {
    hide ProgramOp, ForwardProgramOp, Prefix, Remaining, First, Select, RollbackProgram, Midway, Accepted, Checked,
      Write;
    var v := Checked(s.journal);
    AcceptedShape(s.journal);
    if v.forward == FORWARD_SIZE {
      WriteSound(z, s, TerminalOld, NoStep, f, v.(expected := XClosed));
    } else {
      ForwardProgramKnown(v.forward);
      WriteSound(z, s, ForwardIntent, ForwardOperation(ForwardProgramOp(v.forward)), f, v.(expected := XForwardDispatched));
    }
  }

  lemma ForwardProgramKnown(n: nat)
    ensures IsForward(ForwardProgramOp(n))
  {
  }

  lemma ForwardDispatchInv(z: Frozen, s: State, f: Fault)
    requires Held(z, s) && Checked(s.journal).expected.XForwardDispatched?
    ensures Held(z, Write(s, ForwardDispatched, ForwardOperation(ForwardProgramOp(Checked(s.journal).forward)), f))
    ensures
      var v := Checked(s.journal);
      Moves(s, Write(s, ForwardDispatched, ForwardOperation(ForwardProgramOp(v.forward)), f), f,
            v.(expected := XForwardObserve))
  {
    hide ProgramOp, ForwardProgramOp, Prefix, Remaining, First, Select, RollbackProgram, Midway, Accepted, Checked,
      Write;
    var v := Checked(s.journal);
    AcceptedShape(s.journal);
    ForwardProgramKnown(v.forward);
    WriteSound(z, s, ForwardDispatched, ForwardOperation(ForwardProgramOp(v.forward)), f, v.(expected := XForwardObserve));
  }

  /** A step has taken effect and the transition scan still expects its observation. */
  ghost predicate RestoredAt(z: Frozen, l: Live, v: Scan) {
    && v.expected.XForwardObserve? && v.mode.Forwarding? && v.forward < FORWARD_SIZE
    && Midway(z, l, ForwardDone(v.forward + 1)) && (v.forward >= 9 ==> !NeedReload(l.world))
  }

  function Forwarded(v: Scan): Scan {
    v.(forward := v.forward + 1, expected := if v.forward + 1 < FORWARD_SIZE then XForwardIntent else XTerminalOld)
  }

  lemma RestoredInv(z: Frozen, s: State, l: Live, f: Fault)
    requires Held(z, s) && RestoredAt(z, l, Checked(s.journal))
    ensures
      var op := ForwardProgramOp(Checked(s.journal).forward);
      var s' := Write(s.(live := l), ForwardObserved(SeesDesired), ForwardOperation(op), f);
      Held(z, s') && Moves(s, s', f, Forwarded(Checked(s.journal)))
  {
    hide ProgramOp, ForwardProgramOp, Prefix, Remaining, First, Select, RollbackProgram, Midway, Accepted, Checked,
      Write;
    var v := Checked(s.journal);
    AcceptedShape(s.journal);
    ForwardProgramKnown(v.forward);
    WriteSound(z, s.(live := l), ForwardObserved(SeesDesired), ForwardOperation(ForwardProgramOp(v.forward)), f,
               Forwarded(v));
  }

  lemma ForwardInFlightInv(z: Frozen, s: State, e: Env, f: Fault)
    requires WellFrozen(z) && Held(z, s)
    requires Checked(s.journal).expected.XForwardObserve? && Shape(Checked(s.journal), Last(s.journal))
    ensures Held(z, ForwardInFlight(z, s, ForwardProgramOp(Checked(s.journal).forward), e, f))
  {
    hide ProgramOp, ForwardProgramOp, Prefix, Remaining, First, Select, RollbackProgram, Midway, Accepted, Checked,
      ObserveForward, ApplyForward, Write, Faulted;
    var v := Checked(s.journal);
    var op := ForwardProgramOp(v.forward);
    ForwardLive(z, s.live, v.forward, e, f);
    match ObserveForward(z, s.live, op, e)
    case SeesAmbiguous =>
    case SeesDesired => RestoredInv(z, s, s.live, f);
    case SeesOld =>
      var r := Faulted(s.live, ApplyForward(z, s.live, op, e), ForwardedFile(z, op), f);
      if r.returned { RestoredInv(z, s, r.live, f); }
  }

  /** The host after a forward-to-old step, however the call ended. */
  lemma ForwardLive(z: Frozen, l: Live, n: nat, e: Env, f: Fault)
    requires WellFrozen(z) && n < FORWARD_SIZE && Restoring(z, l, n) && (n >= 10 ==> !NeedReload(l.world))
    ensures
      var op := ForwardProgramOp(n);
      var seen := ObserveForward(z, l, op, e);
      && (seen.SeesDesired? ==> Midway(z, l, ForwardDone(n + 1)) && (n >= 9 ==> !NeedReload(l.world)))
      && (seen.SeesOld? ==>
            var r := Faulted(l, ApplyForward(z, l, op, e), ForwardedFile(z, op), f);
            && Restoring(z, r.live, n) && (n >= 10 ==> !NeedReload(r.live.world))
            && (r.returned ==>
                  ObserveForward(z, r.live, op, e).SeesDesired? && Midway(z, r.live, ForwardDone(n + 1))
                  && (n >= 9 ==> !NeedReload(r.live.world))))
  {
    hide WellFrozen, NeedReload;
    if n >= 15 { ForwardEnds(n); ForwardEnds(n + 1); }
    StaysLoaded(z, l, n, e, f);
    if Midway(z, l, ForwardDone(n)) {
      ForwardOldStep(z, l, n, e);
      if ObserveForward(z, l, ForwardProgramOp(n), e).SeesOld? { ForwardFaults(z, l, n, e, f); }
    } else if Midway(z, l, ForwardDone(n + 1)) {
      if n == 9 { ReloadAgain(z, l, e); } else { AlreadyRestored(z, l, n, e); }
    } else {
      LeftRestore(z, l, n, e, f);
    }
  }

  /** A restore that has left its temporary name is seen as OLD and raises again. */
  lemma LeftRestore(z: Frozen, l: Live, n: nat, e: Env, f: Fault)
    requires ForwardProgramOp(n).RestoreOldFile?
    requires ForwardProgramOp(n).file in l.world.temps && z.files.Get(ForwardProgramOp(n).file).Present?
    requires l.world.files.Get(ForwardProgramOp(n).file) != z.files.Get(ForwardProgramOp(n).file)
    ensures
      var op := ForwardProgramOp(n);
      && ObserveForward(z, l, op, e).SeesOld?
      && Faulted(l, ApplyForward(z, l, op, e), ForwardedFile(z, op), f) == Effect(l, false)
  {
    var op := ForwardProgramOp(n);
    assert l.world.temps + {op.file} == l.world.temps;
  }

  /** From the reload on, nothing touches a unit-configuration file or what is loaded. */
  lemma StaysLoaded(z: Frozen, l: Live, n: nat, e: Env, f: Fault)
    requires 9 <= n < FORWARD_SIZE ==> (n >= 10 ==> !NeedReload(l.world))
    ensures
      var op := ForwardProgramOp(n);
      var r := ApplyForward(z, l, op, e);
      && (n == 9 ==> (ObserveForward(z, l, op, e).SeesDesired? <==> !NeedReload(l.world)) && !NeedReload(r.live.world))
      && (10 <= n < FORWARD_SIZE ==>
            !NeedReload(r.live.world) && !NeedReload(Faulted(l, r, ForwardedFile(z, op), f).live.world))
      && (n == 9 && Faulted(l, r, ForwardedFile(z, op), f).returned ==>
            !NeedReload(Faulted(l, r, ForwardedFile(z, op), f).live.world))
  {
    var op := ForwardProgramOp(n);
    if 10 <= n < FORWARD_SIZE {
      var w := ApplyForward(z, l, op, e).live.world;
      assert w.files == l.world.files && w.loaded == l.world.loaded;
    }
  }

  lemma ForwardFaults(z: Frozen, l: Live, n: nat, e: Env, f: Fault)
    requires WellFrozen(z) && n < FORWARD_SIZE && Midway(z, l, ForwardDone(n))
    requires Restores(z, l, n, e) && ObserveForward(z, l, ForwardProgramOp(n), e).SeesOld?
    ensures Restoring(z, Faulted(l, ApplyForward(z, l, ForwardProgramOp(n), e), ForwardedFile(z, ForwardProgramOp(n)), f).live, n)
  {
    hide WellFrozen;
    var op := ForwardProgramOp(n);
    var r := ApplyForward(z, l, op, e).live;
    assert !ForwardDone(n + 1).running;
    assert Midway(z, l.(world := r.world), ForwardDone(n + 1));
    if f.LeavesTemp? && op.RestoreOldFile? {
      var left := l.(world := l.world.(temps := l.world.temps + {op.file}));
      assert left.(world := left.world.(temps := {})) == l;
    }
  }

  // ----- The invariant over every run -----

  lemma DriftKeeps(z: Frozen, l: Live, s: Done, health: Health)
    requires WellFrozen(z) && Midway(z, l, s)
    ensures Midway(z, Drift(l, health), s)
  {
    Frame(z, l, s, Drift(l, health), s);
  }

  lemma DriftInv(z: Frozen, s: State, j: seq<Record>, health: Health)
    requires WellFrozen(z) && Accepted(j) && Sound(z, s, j)
    ensures Sound(z, s.(live := Drift(s.live, health)), j)
  {
    hide Midway, WellFrozen, Accepted, Checked, Remaining, Prefix, RollbackProgram, ForwardProgramOp, ProgramOp,
      First, Enabled, Select;
    var l := s.live;
    var l' := Drift(l, health);
    forall d: Done | Midway(z, l, d) ensures Midway(z, l', d) { DriftKeeps(z, l, d, health); }
    var clean, clean' := l.(world := l.world.(temps := {})), l'.(world := l'.world.(temps := {}));
    assert clean' == Drift(clean, health);
    forall d: Done | Midway(z, clean, d) ensures Midway(z, clean', d) { DriftKeeps(z, clean, d, health); }
  }

  lemma StepInv(z: Frozen, s: State, a: Action)
    requires WellFrozen(z) && Inv(z, s)
    ensures Inv(z, Step(z, s, a))
  {
    hide WellFrozen, Sound, Poisoned;
    if Held(z, s) {
      match a
      case Resume(e, f) => ResumeInv(z, s, e, f);
      case Rollback(e, f) => RollbackInv(z, s, e, f);
      case ForwardOld(e, f) => ForwardInv(z, s, e, f);
      case HealthDrift(h) => DriftInv(z, s, s.journal, h);
    } else {
      PoisonedStep(z, s, a);
    }
  }

  lemma PoisonedStep(z: Frozen, s: State, a: Action)
    requires WellFrozen(z) && Inv(z, s) && !(Held(z, s))
    ensures Inv(z, Step(z, s, a))
  {
    hide WellFrozen, Sound, ResumeCall, RollbackCall, ForwardCall;
    PoisonedIsRejected(s.journal);
    match a
    case HealthDrift(h) => DriftInv(z, s, s.journal[..|s.journal| - 1], h);
    case _ => Unreadable(z, s, a);
  }

  /** No driver touches anything while the journal is not readable. */
  lemma Unreadable(z: Frozen, s: State, a: Action)
    requires !Readable(s) && !a.HealthDrift?
    ensures Step(z, s, a) == s
  {
  }

  lemma {:induction false} RunInv(z: Frozen, s: State, actions: seq<Action>)
    requires WellFrozen(z) && Inv(z, s)
    ensures Inv(z, Run(z, s, actions))
    decreases |actions|
  {
    if actions != [] {
      StepInv(z, s, actions[0]);
      RunInv(z, Step(z, s, actions[0]), actions[1..]);
    }
  }
}
