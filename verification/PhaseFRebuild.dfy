/** A backend built again after a crash: what it can still promise, over every run and any number of such
    rebuilds.  And why the reload is compensated after the files. */
module PhaseFRebuild {
  import opened PhaseFWorld
  import opened PhaseFBackend
  import opened PhaseFProgram
  import opened PhaseFJournal
  import opened PhaseFDriver
  import opened PhaseFForwardOld
  import opened PhaseFInvariant
  import opened PhaseFTheorems
  import opened PhaseFLiveness
  import opened PhaseFDeadlock

  // ----- The constructor run a second time -----

  /** The constructor is handed the frozen old container and the expected network, but takes its file
      and unit snapshots from the host it finds. */
  function Rebuilt(z: Frozen, w: World): Frozen {
    z.(files := w.files, units := w.units, upToDate := !NeedReload(w))
  }

  /** A new backend remembers the target only if the old container is not under the canonical name, and
      no startup recovery. */
  function RebuiltLive(z: Frozen, l: Live): Live {
    Live(l.world, if IsOld(z, l.world.canonical) then None else l.world.canonical, false)
  }

  function RebuiltState(z: Frozen, s: State): State {
    s.(live := RebuiltLive(z, s.live))
  }

  /** When the constructor accepts a part-way host: a target must run to be a member of the network, and
      an old container that was a member is missed as soon as it is stopped. */
  lemma RebuildAdmitted(z: Frozen, l: Live, s: Done)
    requires WellFrozen(z) && Midway(z, l, s)
    ensures Constructible(Rebuilt(z, l.world), l.world) <==>
              if s.oldArchived && s.created then s.running
              else s.oldStopped ==> z.network.members == l.world.foreign
  {
    hide FilesAt, LoadedAt, UnitsAt, NeedReload;
    var w := l.world;
    if s.oldArchived && s.created {
      assert w.foreign == {} && Members(w) == Joined(w.canonical);
    } else if !s.oldStopped {
      assert Members(w) == z.network.members;
    } else {
      assert Members(w) == w.foreign;
    }
  }

  /** The host a crash left is part-way for the rebuilt backend too, with what it finds in the place of
      what was there before the activation. */
  lemma RebuiltMidway(z: Frozen, l: Live, s: Done)
    requires WellFrozen(z) && Midway(z, l, s)
    ensures WellFrozen(Rebuilt(z, l.world)) && Midway(Rebuilt(z, l.world), RebuiltLive(z, l), s)
  {
    hide NeedReload;
    RebuiltUnits(z, l.world, s);
    RebuiltFiles(z, l.world, s);
    assert ContainersAt(Rebuilt(z, l.world), RebuiltLive(z, l), s);
  }

  lemma RebuiltUnits(z: Frozen, w: World, s: Done)
    requires WellFrozen(z) && UnitsAt(z, w, s)
    ensures WellFrozen(Rebuilt(z, w)) && UnitsAt(Rebuilt(z, w), w, s)
  {
    hide NeedReload;
    forall u: UnitId
      ensures w.units.Get(u) == CleanActive(u) || w.units.Get(u) == CLEAN_INACTIVE
      ensures w.units.Get(u) ==
                if s.started.Get(u) then CleanActive(u) else if s.stopped.Get(u) then CLEAN_INACTIVE else w.units.Get(u)
    {
      assert z.units.Get(u) == CleanActive(u) || z.units.Get(u) == CLEAN_INACTIVE;
    }
  }

  /** Publishing over what has been published changes nothing. */
  lemma RebuiltFiles(z: Frozen, w: World, s: Done)
    requires FilesAt(z, w, s) && LoadedAt(z, w, s)
    ensures FilesAt(Rebuilt(z, w), w, s) && LoadedAt(Rebuilt(z, w), w, s)
  {
    forall f: FileId
      ensures s.published.Get(f) ==> Published(w.files.Get(f), z.desired.Get(f)) == w.files.Get(f)
      ensures Published(w.files.Get(f), z.desired.Get(f)) == Published(z.files.Get(f), z.desired.Get(f))
      ensures IsUnitConfig(f) && !NeedReload(w) ==> w.loaded.Get(f) == w.files.Get(f)
    {
      assert w.files.Get(f) == (if s.published.Get(f) then Published(z.files.Get(f), z.desired.Get(f)) else z.files.Get(f));
    }
  }

  // ----- A temporary name left by a cut restore -----

  function TempedLive(l: Live, temps: set<FileId>): Live {
    l.(world := l.world.(temps := temps))
  }

  function Temped(s: State, temps: set<FileId>): State {
    s.(live := TempedLive(s.live, temps))
  }

  /** Only restores are still to come, and every file is as it was found: no call looks at a file's
      temporary name any more. */
  predicate Settled(z: Frozen, s: State) {
    s.live.world.files == z.files && (Mentions(s.journal, RollbackStarted) || Mentions(s.journal, ForwardStarted))
  }

  lemma ObservationBlind(z: Frozen, l: Live, temps: set<FileId>)
    requires l.world.files == z.files
    ensures FullOld(z, TempedLive(l, temps).world) <==> FullOld(z, l.world)
    ensures forall op: Op ::
              && ObserveCompensation(z, TempedLive(l, temps), op) == ObserveCompensation(z, l, op)
              && (op.PublishFile? ==> ObserveCompensation(z, l, op).SeesOld?)
    ensures forall op: ForwardOp, e: Env ::
              && ObserveForward(z, TempedLive(l, temps), op, e) == ObserveForward(z, l, op, e)
              && (op.RestoreOldFile? ==> ObserveForward(z, l, op, e).SeesDesired?)
  {
    var l' := TempedLive(l, temps);
    assert NeedReload(l'.world) <==> NeedReload(l.world);
    assert FullOld(z, l'.world) <==> FullOld(z, l.world);
  }

  lemma CompensateBlind(z: Frozen, l: Live, op: Op, e: Env, temps: set<FileId>)
    requires !op.PublishFile?
    ensures
      var r := Compensate(z, l, op, e);
      && Compensate(z, TempedLive(l, temps), op, e) == Effect(TempedLive(r.live, temps), r.returned)
      && r.live.world.files == l.world.files
  {
  }

  lemma ForwardBlind(z: Frozen, l: Live, op: ForwardOp, e: Env, temps: set<FileId>)
    requires !op.RestoreOldFile?
    ensures
      var r := ApplyForward(z, l, op, e);
      && ApplyForward(z, TempedLive(l, temps), op, e) == Effect(TempedLive(r.live, temps), r.returned)
      && r.live.world.files == l.world.files
  {
  }

  /** A call only adds records. */
  predicate Extended(j: seq<Record>, j': seq<Record>) {
    j <= j'
  }

  lemma TempedFacts(s: State, temps: set<FileId>)
    ensures
      var t := Temped(s, temps);
      && t.journal == s.journal && t.torn == s.torn && t.live == TempedLive(s.live, temps)
      && (Readable(t) <==> Readable(s)) && Extended(s.journal, s.journal)
  {
  }

  lemma TempedWith(s: State, l: Live, temps: set<FileId>)
    ensures Temped(s, temps).(live := TempedLive(l, temps)) == Temped(s.(live := l), temps)
  {
  }

  lemma WriteBlind(s: State, kind: Kind, step: StepId, f: Fault, temps: set<FileId>)
    requires s.journal != []
    ensures
      var s' := Write(s, kind, step, f);
      && Temped(s, temps).journal != [] && Write(Temped(s, temps), kind, step, f) == Temped(s', temps)
      && s'.live == s.live && Extended(s.journal, s'.journal)
    ensures
      var s' := WriteAndClose(s, kind, step, f);
      && WriteAndClose(Temped(s, temps), kind, step, f) == Temped(s', temps)
      && s'.live == s.live && Extended(s.journal, s'.journal)
  {
  }

  lemma FaultBlind(l: Live, r: Effect, f: Fault, temps: set<FileId>)
    ensures
      var u := Faulted(l, r, None, f);
      && Faulted(TempedLive(l, temps), Effect(TempedLive(r.live, temps), r.returned), None, f)
         == Effect(TempedLive(u.live, temps), u.returned)
      && (r.live.world.files == l.world.files ==> u.live.world.files == l.world.files)
      && (u.returned ==> u == r)
  {
  }

  lemma NextBlind(z: Frozen, s: State, program: seq<Op>, compensated: seq<Op>, f: Fault, temps: set<FileId>)
    requires s.live.world.files == z.files && s.journal != [] && compensated <= program
    ensures
      var s' := CompensateNext(z, s, program, compensated, f);
      && Temped(s, temps).journal != []
      && CompensateNext(z, Temped(s, temps), program, compensated, f) == Temped(s', temps)
      && s'.live.world.files == z.files && Extended(s.journal, s'.journal)
  {
    hide Write, FullOld, Temped, TempedLive, Extended;
    TempedFacts(s, temps);
    ObservationBlind(z, s.live, temps);
    WriteBlind(s, TerminalOld, NoStep, f, temps);
    WriteBlind(s, TerminalAmbiguous, NoStep, f, temps);
    if |compensated| < |program| { WriteBlind(s, CompIntent, Operation(program[|compensated|]), f, temps); }
  }

  lemma CompensationBlind(z: Frozen, s: State, op: Op, e: Env, f: Fault, temps: set<FileId>)
    requires s.live.world.files == z.files && s.journal != []
    ensures
      var s' := CompensateDispatched(z, s, op, e, f);
      && Temped(s, temps).journal != []
      && CompensateDispatched(z, Temped(s, temps), op, e, f) == Temped(s', temps)
      && s'.live.world.files == z.files && Extended(s.journal, s'.journal)
  {
    hide ObserveCompensation, Compensate, Write, WriteAndClose, Temped, TempedLive, Faulted, Extended;
    TempedFacts(s, temps);
    ObservationBlind(z, s.live, temps);
    WriteBlind(s, CompObserved(SeesOld), Operation(op), f, temps);
    if !op.PublishFile? {
      var r := Compensate(z, s.live, op, e);
      CompensateBlind(z, s.live, op, e, temps);
      FaultBlind(s.live, r, f, temps);
      var l := Faulted(s.live, r, None, f).live;
      TempedWith(s, l, temps);
      TempedFacts(s.(live := l), temps);
      ObservationBlind(z, l, temps);
      WriteBlind(s.(live := l), CompObserved(SeesOld), Operation(op), f, temps);
      WriteBlind(s.(live := l), CompObserved(SeesAmbiguous), Operation(op), f, temps);
    }
  }

  lemma ForwardNextBlind(z: Frozen, s: State, completed: nat, f: Fault, temps: set<FileId>)
    requires s.live.world.files == z.files && s.journal != []
    ensures
      var s' := ForwardNext(s, completed, f);
      && Temped(s, temps).journal != [] && ForwardNext(Temped(s, temps), completed, f) == Temped(s', temps)
      && s'.live.world.files == z.files && Extended(s.journal, s'.journal)
  {
    hide Write, Temped, ForwardProgramOp, Extended;
    TempedFacts(s, temps);
    WriteBlind(s, TerminalOld, NoStep, f, temps);
    WriteBlind(s, ForwardIntent, ForwardOperation(ForwardProgramOp(completed)), f, temps);
  }

  lemma RestorationBlind(z: Frozen, s: State, op: ForwardOp, e: Env, f: Fault, temps: set<FileId>)
    requires s.live.world.files == z.files && s.journal != []
    ensures
      var s' := ForwardInFlight(z, s, op, e, f);
      && Temped(s, temps).journal != []
      && ForwardInFlight(z, Temped(s, temps), op, e, f) == Temped(s', temps)
      && s'.live.world.files == z.files && Extended(s.journal, s'.journal)
  {
    hide ObserveForward, ApplyForward, Write, WriteAndClose, Temped, TempedLive, Faulted, Extended, ReobserveForward;
    TempedFacts(s, temps);
    ObservationBlind(z, s.live, temps);
    WriteBlind(s, ForwardObserved(SeesDesired), ForwardOperation(op), f, temps);
    if !op.RestoreOldFile? {
      var r := ApplyForward(z, s.live, op, e);
      ForwardBlind(z, s.live, op, e, temps);
      FaultBlind(s.live, r, f, temps);
      var l := Faulted(s.live, r, None, f).live;
      TempedWith(s, l, temps);
      TempedFacts(s.(live := l), temps);
      AgainBlind(z, s.(live := l), op, e, f, temps);
    }
  }

  lemma AgainBlind(z: Frozen, s: State, op: ForwardOp, e: Env, f: Fault, temps: set<FileId>)
    requires s.live.world.files == z.files && s.journal != []
    ensures
      var s' := ReobserveForward(z, s, op, e, f);
      && Temped(s, temps).journal != []
      && ReobserveForward(z, Temped(s, temps), op, e, f) == Temped(s', temps)
      && s'.live.world.files == z.files && Extended(s.journal, s'.journal)
  {
    hide ObserveForward, Write, WriteAndClose, Temped, TempedLive, Extended;
    TempedFacts(s, temps);
    ObservationBlind(z, s.live, temps);
    WriteBlind(s, ForwardObserved(SeesDesired), ForwardOperation(op), f, temps);
    WriteBlind(s, ForwardObserved(SeesAmbiguous), ForwardOperation(op), f, temps);
  }

  /** What a call of the rollback or the forward driver sets out to do. */
  datatype Move =
    | Stay
    | Put(kind: Kind, step: StepId)
    | NextCompensation(program: seq<Op>, compensated: seq<Op>)
    | Compensating(op: Op)
    | NextRestore(completed: nat)
    | Restoration(forward: ForwardOp)

  /** The journal alone decides it. */
  function RollbackMove(j: seq<Record>): Move {
    if j == [] || Mentions(j, WriterDispatched) || Last(j).kind.TerminalOld? || Last(j).kind.TerminalAmbiguous? then Stay
    else
      var completed := CompletedOps(j);
      var program, compensated := RollbackProgram(completed), CompensatedOps(j);
      if completed == [] || completed != First(|completed|) then Stay
      else if !Mentions(j, RollbackStarted) then
        if Last(j).kind.OpIntent? || Last(j).kind == OpObserved(SeesDesired) || Last(j).kind.WriterIntent?
        then Put(RollbackStarted, NoStep) else Stay
      else if !(compensated <= program) then Stay
      else
        match Last(j).kind
        case RollbackStarted => NextCompensation(program, compensated)
        case CompObserved(seen) => if seen.SeesOld? then NextCompensation(program, compensated) else Stay
        case CompIntent => Put(CompDispatched, Last(j).step)
        case CompDispatched => if Last(j).step.Operation? then Compensating(Last(j).step.op) else Stay
        case _ => Stay
  }

  function ForwardMove(j: seq<Record>): Move {
    if j == [] || !Mentions(j, WriterDispatched) || Last(j).kind.TerminalOld? || Last(j).kind.TerminalAmbiguous? then Stay
    else if !Mentions(j, ForwardStarted) then
      if Last(j).kind.WriterDispatched? || Last(j).kind.WriterReturned? then Put(ForwardStarted, NoStep) else Stay
    else
      var completed := ForwardedOps(j);
      if |completed| > FORWARD_SIZE || completed != FirstForward(|completed|) then Stay
      else
        match Last(j).kind
        case ForwardStarted => NextRestore(|completed|)
        case ForwardObserved(seen) => if seen.SeesDesired? then NextRestore(|completed|) else Stay
        case ForwardIntent => Put(ForwardDispatched, Last(j).step)
        case ForwardDispatched => if Last(j).step.ForwardOperation? then Restoration(Last(j).step.forward) else Stay
        case _ => Stay
  }

  function CarriedOut(z: Frozen, s: State, m: Move, e: Env, f: Fault): State {
    if s.journal == [] then s
    else
      match m
      case Stay => s
      case Put(kind, step) => Write(s, kind, step, f)
      case NextCompensation(program, compensated) =>
        if compensated <= program then CompensateNext(z, s, program, compensated, f) else s
      case Compensating(op) => CompensateDispatched(z, s, op, e, f)
      case NextRestore(completed) => ForwardNext(s, completed, f)
      case Restoration(op) => ForwardInFlight(z, s, op, e, f)
  }

  lemma RollbackCarriesOut(z: Frozen, s: State, e: Env, f: Fault)
    ensures RollbackCall(z, s, e, f) == if Readable(s) then CarriedOut(z, s, RollbackMove(s.journal), e, f) else s
  {
    assert s.journal == [] ==> !Readable(s);
    hide Accepted, Mentions, CompletedOps, CompensatedOps, First, RollbackProgram, Write, CompensateNext,
      CompensateDispatched, Readable, Last;
  }

  lemma ForwardCarriesOut(z: Frozen, s: State, e: Env, f: Fault)
    ensures ForwardCall(z, s, e, f) == if Readable(s) then CarriedOut(z, s, ForwardMove(s.journal), e, f) else s
  {
    assert s.journal == [] ==> !Readable(s);
    hide Accepted, Mentions, ForwardedOps, FirstForward, Write, ForwardNext, ForwardInFlight, Readable, Last;
    if Readable(s) && ForwardMove(s.journal).Stay? {
      assert ForwardCall(z, s, e, f) == s;
    }
  }

  lemma MoveBlind(z: Frozen, s: State, m: Move, e: Env, f: Fault, temps: set<FileId>)
    requires s.live.world.files == z.files
    ensures
      var s' := CarriedOut(z, s, m, e, f);
      && CarriedOut(z, Temped(s, temps), m, e, f) == Temped(s', temps)
      && s'.live.world.files == z.files && Extended(s.journal, s'.journal)
  {
    hide Write, CompensateNext, CompensateDispatched, ForwardNext, ForwardInFlight, Temped, Extended;
    TempedFacts(s, temps);
    if s.journal != [] {
      match m
      case Stay =>
      case Put(kind, step) => WriteBlind(s, kind, step, f, temps);
      case NextCompensation(program, compensated) =>
        if compensated <= program { NextBlind(z, s, program, compensated, f, temps); }
      case Compensating(op) => CompensationBlind(z, s, op, e, f, temps);
      case NextRestore(completed) => ForwardNextBlind(z, s, completed, f, temps);
      case Restoration(op) => RestorationBlind(z, s, op, e, f, temps);
    }
  }

  /** Resuming is over once a rollback or the forward path has begun. */
  lemma RetiredResume(z: Frozen, s: State, e: Env, f: Fault)
    requires Mentions(s.journal, RollbackStarted) || Mentions(s.journal, ForwardStarted)
    ensures ResumeCall(z, s, e, f) == s
  {
    hide Accepted, Mentions, CompletedOps, CompensatedOps, ForwardedOps, First, FirstForward, RollbackProgram,
      ProgramOp,
      ForwardProgramOp;
    if Readable(s) {
      RollbackReads(s.journal);
      ForwardReads(s.journal);
    }
  }

  lemma StepBlind(z: Frozen, s: State, a: Action, temps: set<FileId>)
    requires Settled(z, s)
    ensures Step(z, Temped(s, temps), a) == Temped(Step(z, s, a), temps) && Settled(z, Step(z, s, a))
  {
    hide ResumeCall, RollbackCall, ForwardCall, CarriedOut, RollbackMove, ForwardMove, Mentions;
    var t, s' := Temped(s, temps), Step(z, s, a);
    match a
    case Resume(e, f) =>
      RetiredResume(z, s, e, f);
      RetiredResume(z, t, e, f);
    case Rollback(e, f) =>
      RollbackCarriesOut(z, s, e, f);
      RollbackCarriesOut(z, t, e, f);
      MoveBlind(z, s, RollbackMove(s.journal), e, f, temps);
      StillMentions(s.journal, s'.journal);
    case ForwardOld(e, f) =>
      ForwardCarriesOut(z, s, e, f);
      ForwardCarriesOut(z, t, e, f);
      MoveBlind(z, s, ForwardMove(s.journal), e, f, temps);
      StillMentions(s.journal, s'.journal);
    case HealthDrift(_) =>
  }

  lemma StillMentions(j: seq<Record>, j': seq<Record>)
    requires Extended(j, j')
    ensures forall kind :: Mentions(j, kind) ==> Mentions(j', kind)
  {
    assert forall r | r in j :: r in j';
  }

  lemma {:induction false} RunBlind(z: Frozen, s: State, actions: seq<Action>, temps: set<FileId>)
    requires Settled(z, s)
    ensures Run(z, Temped(s, temps), actions) == Temped(Run(z, s, actions), temps) && Settled(z, Run(z, s, actions))
    decreases |actions|
  {
    hide Step, Settled;
    if actions != [] {
      StepBlind(z, s, actions[0], temps);
      RunBlind(z, Step(z, s, actions[0]), actions[1..], temps);
    }
  }

  // ----- The invariant survives a rebuild -----

  /** A rebuild keeps the journal and the host related, where no cut restore has left a temporary name. */
  predicate Rebuildable(s: State) {
    s.live.world.temps == {} || !(Mentions(s.journal, RollbackStarted) || Mentions(s.journal, ForwardStarted))
  }

  lemma RebuiltInv(z: Frozen, s: State)
    requires WellFrozen(z) && Inv(z, s) && Rebuildable(s)
    ensures WellFrozen(Rebuilt(z, s.live.world)) && Inv(Rebuilt(z, s.live.world), RebuiltState(z, s))
  {
    hide WellFrozen, Sound, Mentions;
    if Held(z, s) {
      RebuiltSound(z, s, s.journal);
    } else {
      PoisonedIsSettled(z, s);
      RebuiltSound(z, s, s.journal[..|s.journal| - 1]);
    }
  }

  /** A poisoned journal closes a finished rollback, where no temporary name is left. */
  lemma PoisonedIsSettled(z: Frozen, s: State)
    requires Inv(z, s) && !Held(z, s)
    ensures s.live.world.temps == {}
  {
    hide Accepted, Remaining, First, RollbackProgram;
  }

  lemma RebuiltSound(z: Frozen, s: State, j: seq<Record>)
    requires WellFrozen(z) && Accepted(j) && Sound(z, s, j)
    requires s.live.world.temps == {} || !(Mentions(j, RollbackStarted) || Mentions(j, ForwardStarted))
    ensures WellFrozen(Rebuilt(z, s.live.world)) && Sound(Rebuilt(z, s.live.world), RebuiltState(z, s), j)
  {
    hide WellFrozen, Accepted, Checked, Midway, Mentions, ProgramOp, ForwardProgramOp, Prefix, Remaining, First,
      RollbackProgram, NeedReload, FilesAt, LoadedAt, UnitsAt, ContainersAt;
    RollbackReads(j);
    ForwardReads(j);
    var l := s.live;
    var z', l' := Rebuilt(z, l.world), RebuiltLive(z, l);
    forall d: Done | Midway(z, l, d) ensures WellFrozen(z') && Midway(z', l', d) { RebuiltMidway(z, l, d); }
    var clean, clean' := l.(world := l.world.(temps := {})), l'.(world := l'.world.(temps := {}));
    CleanRebuilt(z, l);
    forall d: Done | Midway(z, clean, d) ensures WellFrozen(z') && Midway(z', clean', d) { RebuiltMidway(z, clean, d); }
  }

  /** The constructor does not look at temporary names. */
  lemma CleanRebuilt(z: Frozen, l: Live)
    ensures
      var clean := l.(world := l.world.(temps := {}));
      && Rebuilt(z, clean.world) == Rebuilt(z, l.world)
      && RebuiltLive(z, clean) == RebuiltLive(z, l).(world := clean.world)
  {
    assert NeedReload(l.world.(temps := {})) <==> NeedReload(l.world);
  }

  function Clean(s: State): State {
    Temped(s, {})
  }

  lemma CleanInv(z: Frozen, s: State)
    requires Inv(z, s)
    ensures Inv(z, Clean(s))
  {
    hide Accepted, Checked, Midway;
    if Held(z, s) { CleanSound(z, s, s.journal); } else { CleanSound(z, s, s.journal[..|s.journal| - 1]); }
  }

  lemma CleanSound(z: Frozen, s: State, j: seq<Record>)
    requires Accepted(j) && Sound(z, s, j)
    ensures Sound(z, Clean(s), j)
  {
    hide Accepted, Checked, ProgramOp, ForwardProgramOp, Prefix, Remaining, First, RollbackProgram, FilesAt, LoadedAt,
      UnitsAt, ContainersAt;
    var l, l' := s.live, Clean(s).live;
    assert NeedReload(l'.world) <==> NeedReload(l.world);
    forall d: Done | Midway(z, l, d) ensures Midway(z, l', d) { assert l'.world == l.world; }
  }

  /** With the temporary name that a cut restore may have left, they are related as far as the rest of the
      host goes, and no call looks at that name. */
  ghost predicate Tracked(z: Frozen, s: State) {
    Inv(z, s) || (Settled(z, s) && Inv(z, Clean(s)))
  }

  lemma RebuiltTracked(z: Frozen, s: State)
    requires WellFrozen(z) && Tracked(z, s)
    ensures WellFrozen(Rebuilt(z, s.live.world)) && Tracked(Rebuilt(z, s.live.world), RebuiltState(z, s))
  {
    hide WellFrozen, Inv, Mentions;
    if Inv(z, s) && Rebuildable(s) {
      RebuiltInv(z, s);
    } else {
      if Inv(z, s) { CleanInv(z, s); }
      CleanRebuilt(z, s.live);
      RebuiltInv(z, Clean(s));
      assert RebuiltState(z, Clean(s)) == Clean(RebuiltState(z, s));
    }
  }

  lemma RunTracked(z: Frozen, s: State, actions: seq<Action>)
    requires WellFrozen(z) && Tracked(z, s)
    ensures Tracked(z, Run(z, s, actions))
  {
    hide WellFrozen, Inv, Settled, Run;
    if Inv(z, s) {
      RunInv(z, s, actions);
    } else {
      RunInv(z, Clean(s), actions);
      RunBlind(z, s, actions, {});
    }
  }

  // ----- Runs of several backends -----

  /** Each life is what one backend is asked to do; between two lives the process dies and the next
      backend is built on the host as it is. */
  function Lives(z: Frozen, s: State, lives: seq<seq<Action>>): (Frozen, State)
    decreases |lives|
  {
    if lives == [] then (z, s)
    else
      var s1 := Run(z, s, lives[0]);
      Lives(Rebuilt(z, s1.live.world), RebuiltState(z, s1), lives[1..])
  }

  /** The journal and the host stay related over any number of crashes and rebuilds, each life with its
      own snapshots. */
  lemma {:induction false} LivesTracked(z: Frozen, s: State, lives: seq<seq<Action>>)
    requires WellFrozen(z) && Tracked(z, s)
    ensures
      var (z', s') := Lives(z, s, lives);
      WellFrozen(z') && Tracked(z', s') && z'.container == z.container
    decreases |lives|
  {
    hide WellFrozen, Tracked, Run;
    if lives != [] {
      var s1 := Run(z, s, lives[0]);
      RunTracked(z, s, lives[0]);
      RebuiltTracked(z, s1);
      LivesTracked(Rebuilt(z, s1.live.world), RebuiltState(z, s1), lives[1..]);
    }
  }

  lemma TrackedTerminal(z: Frozen, s: State)
    requires Tracked(z, s) && EndsOld(s)
    ensures Midway(z, Clean(s).live, NOTHING)
    ensures s.live.world.files == z.files && s.live.world.units == z.units && s.live.world.archived.None?
    ensures s.live.world.canonical.Some?
    ensures FullOld(z, s.live.world) <==> s.live.world.canonical.value.health == z.container.health
  {
    hide Inv, Midway, Settled;
    if Inv(z, s) { CleanInv(z, s); }
    HeldTerminal(z, Clean(s));
    SnapshotBack(z, Clean(s).live);
    ObservationBlind(z, s.live, {});
  }

  /** TERMINAL_OLD means, over all of these runs, the state that the last backend found when it was
      built. */
  lemma LastSnapshotIsOld(z: Frozen, s: State, lives: seq<seq<Action>>, last: seq<Action>)
    requires WellFrozen(z) && Tracked(z, s)
    requires
      var (z', s') := Lives(z, s, lives);
      EndsOld(Run(z', s', last))
    ensures
      var (z', s') := Lives(z, s, lives);
      var end := Run(z', s', last).live.world;
      && end.files == z'.files && end.units == z'.units && end.archived.None? && end.canonical.Some?
      && (FullOld(z', end) <==> end.canonical.value.health == z.container.health)
  {
    hide WellFrozen, Tracked, Run, Midway;
    LivesTracked(z, s, lives);
    var (z', s') := Lives(z, s, lives);
    RunTracked(z', s', last);
    TrackedTerminal(z', Run(z', s', last));
  }

  lemma SnapshotBack(z: Frozen, l: Live)
    requires Midway(z, l, NOTHING)
    ensures l.world.files == z.files && l.world.units == z.units && l.world.archived.None?
    ensures l.world.canonical.Some? && (FullOld(z, l.world) <==> l.world.canonical.value.health == z.container.health)
  {
    FullyCompensated(z, l);
    SameFiles(l.world.files, z.files);
    SameUnits(l.world.units, z.units);
  }

  /** So after one crash, whatever the journal was recording and whatever the rebuilt backend goes through
      until it records TERMINAL_OLD, that means the state before the activation if and only if the crash
      had left every file and unit in it. */
  lemma RebuiltRestoresIff(z: Frozen, s: State, actions: seq<Action>)
    requires WellFrozen(z) && Inv(z, s)
    requires EndsOld(Run(Rebuilt(z, s.live.world), RebuiltState(z, s), actions))
    ensures
      var end := Run(Rebuilt(z, s.live.world), RebuiltState(z, s), actions).live.world;
      && end.files == s.live.world.files && end.units == s.live.world.units
      && (FilesOld(z, end) && UnitsOld(z, end) <==> FilesOld(z, s.live.world) && UnitsOld(z, s.live.world))
  {
    hide WellFrozen, Inv, Run;
    RebuiltTracked(z, s);
    RunTracked(Rebuilt(z, s.live.world), RebuiltState(z, s), actions);
    TrackedTerminal(Rebuilt(z, s.live.world), Run(Rebuilt(z, s.live.world), RebuiltState(z, s), actions));
  }

  // ----- And it does get there -----

  /** But for a temporary name, a rebuilt backend finds the journal ready to go on. */
  lemma RebuiltReady(z: Frozen, s: State)
    requires WellFrozen(z) && Held(z, s) && !s.torn
    ensures WellFrozen(Rebuilt(z, s.live.world)) && Ready(Rebuilt(z, s.live.world), Clean(RebuiltState(z, s)))
  {
    hide WellFrozen, Sound, Poisoned;
    CleanInv(z, s);
    RebuiltInv(z, Clean(s));
    CleanRebuilt(z, s.live);
    assert RebuiltState(z, Clean(s)) == Clean(RebuiltState(z, s));
    if Poisoned(s.journal) { PoisonedIsRejected(s.journal); }
  }

  /** A temporary name that is left where a rollback or the forward path may go on belongs to a restore,
      and does not get into the way of a rebuilt backend. */
  lemma RebuiltRun(z: Frozen, s: State, actions: seq<Action>)
    requires Held(z, s) && (CanRollBack(Checked(s.journal)) || CanForward(Checked(s.journal)))
    ensures
      var z', t := Rebuilt(z, s.live.world), RebuiltState(z, s);
      var end := Run(z', t, actions);
      end == Temped(Run(z', Clean(t), actions), end.live.world.temps)
  {
    hide Accepted, Checked, LiveAt, Mentions, Run;
    var z', t := Rebuilt(z, s.live.world), RebuiltState(z, s);
    assert Temped(Clean(t), s.live.world.temps) == t;
    if s.live.world.temps == {} {
      assert Clean(t) == t;
    } else {
      LeftTempWhere(z, s);
      RollbackReads(s.journal);
      ForwardReads(s.journal);
      RunBlind(z', Clean(t), actions, s.live.world.temps);
    }
  }

  /** Before the writer, whether the rollback had begun or not, a rebuilt backend rolls back to
      TERMINAL_OLD with the interrupted activation in place.  So it does where a cut restore has left its
      temporary name, which the backend before it could not get past. */
  lemma RebuiltRollback(z: Frozen, s: State, es: seq<Env>)
    requires WellFrozen(z) && Held(z, s) && !s.torn && CanRollBack(Checked(s.journal))
    requires |es| == RollbackDistance(Checked(s.journal))
    ensures
      var s' := Run(Rebuilt(z, s.live.world), RebuiltState(z, s), Rollbacks(es));
      && s'.live.world.files == s.live.world.files && s'.live.world.units == s.live.world.units
      && s'.live.world.canonical.Some?
      && (EndsOld(s') <==> s'.live.world.canonical.value.health == z.container.health)
  {
    hide WellFrozen, Accepted, Checked, Midway, RollbackProgram, Run, Sound;
    var z', t := Rebuilt(z, s.live.world), Clean(RebuiltState(z, s));
    RebuiltReady(z, s);
    RebuiltRun(z, s, Rollbacks(es));
    RollbackCompletes(z', t, es);
    SnapshotBack(z', Run(z', t, Rollbacks(es)).live);
  }

  /** The writer is only reached with every unit frozen inactive, and with all of them started since.
      So past it the files and units of before are back only once thirteen of the forward steps are
      done. */
  lemma OriginalsBackIff(z: Frozen, l: Live, n: nat)
    requires WellFrozen(z) && AllInactive(z) && Midway(z, l, ForwardDone(n))
    ensures FilesOld(z, l.world) && UnitsOld(z, l.world) <==> n >= 13
  {
    if n < 13 {
      assert l.world.units.Get(RuntimeService) == CleanActive(RuntimeService);
    }
  }

  /** Past the writer, whether the forward path had begun or not, a rebuilt backend goes forward to
      TERMINAL_OLD with the files and units that the crash left; those are the ones of before exactly
      when the crash came after the thirteenth forward step. */
  lemma RebuiltForward(z: Frozen, s: State, e: Env, calls: nat)
    requires WellFrozen(z) && Held(z, s) && !s.torn && CanForward(Checked(s.journal)) && Cooperates(z, s.live, e)
    requires calls == ForwardDistance(Checked(s.journal))
    ensures
      var end := Run(Rebuilt(z, s.live.world), RebuiltState(z, s), Forwards(e, calls));
      && EndsOld(end) && Readable(end) && !NeedReload(end.live.world)
      && end.live.world.files == s.live.world.files && end.live.world.units == s.live.world.units
      && forall n: nat | AllInactive(z) && Midway(z, Clean(s).live, ForwardDone(n)) ::
           FilesOld(z, end.live.world) && UnitsOld(z, end.live.world) <==> n >= 13
  {
    hide WellFrozen, Accepted, Checked, Midway, RollbackProgram, Run, Sound, NeedReload, AllInactive;
    var z', t := Rebuilt(z, s.live.world), Clean(RebuiltState(z, s));
    RebuiltReady(z, s);
    RebuiltRun(z, s, Forwards(e, calls));
    assert OldRecovered(z', t.live);
    ForwardCompletes(z', t, e, calls);
    var clean := Run(z', t, Forwards(e, calls));
    RunInv(z', t, Forwards(e, calls));
    HeldTerminal(z', clean);
    SnapshotBack(z', clean.live);
    var end := Run(z', RebuiltState(z, s), Forwards(e, calls));
    ReloadBlind(clean.live.world, end.live.world.temps);
    forall n: nat | AllInactive(z) && Midway(z, Clean(s).live, ForwardDone(n))
      ensures FilesOld(z, s.live.world) && UnitsOld(z, s.live.world) <==> n >= 13
    {
      OriginalsBackIff(z, Clean(s).live, n);
    }
  }

  lemma ReloadBlind(w: World, temps: set<FileId>)
    ensures NeedReload(w.(temps := temps)) <==> NeedReload(w)
  {
  }

  /** With a unit that was active, the two failures exclude each other's cure: the first backend cannot
      start that unit again, and a backend rebuilt while the units are stopped can, but no longer knows
      that the unit was active. */
  lemma RebuiltUnblocks(z: Frozen, l: Live, k: nat)
    requires WellFrozen(z) && 3 <= k <= 12 && Midway(z, l, Prefix(k))
    ensures AllInactive(Rebuilt(z, l.world))
    ensures UnitsOld(z, l.world) <==> AllInactive(z)
  {
    hide Prefix, NeedReload;
    forall u: UnitId ensures l.world.units.Get(u) == CLEAN_INACTIVE {
      PrefixHas(k, StopUnit(u));
      PrefixHas(k, StartUnit(u));
      HasBy(Prefix(k));
    }
  }

  /** What goes wrong, in one call: a compensation that was dispatched for a published file is recorded as
      done by the rebuilt backend, and the file stays as it was published. */
  lemma RebuiltSkipsRestore(z: Frozen, s: State, f: FileId, e: Env)
    requires WellFrozen(z) && Held(z, s) && !s.torn
    requires s.journal != [] && Last(s.journal).kind.CompDispatched? && Last(s.journal).step == Operation(PublishFile(f))
    ensures
      var s' := RollbackCall(Rebuilt(z, s.live.world), RebuiltState(z, s), e, NoFault);
      && Accepted(s'.journal) && Last(s'.journal).kind == CompObserved(SeesOld)
      && Last(s'.journal).step == Operation(PublishFile(f)) && s'.live.world == s.live.world
  {
    hide WellFrozen, Accepted, Checked, Midway, Mentions, CompletedOps, CompensatedOps, First, RollbackProgram,
      ProgramOp;
    var z', t := Rebuilt(z, s.live.world), RebuiltState(z, s);
    RebuiltReady(z, s);
    RollbackReads(s.journal);
    RollbackInv(z', Clean(t), e, NoFault);
    RollbackCarriesOut(z', t, e, NoFault);
    RollbackCarriesOut(z', Clean(t), e, NoFault);
    MoveBlind(z', Clean(t), RollbackMove(s.journal), e, NoFault, s.live.world.temps);
    assert Temped(Clean(t), s.live.world.temps) == t;
  }

  lemma SameFiles(a: PerFile<FileState>, b: PerFile<FileState>)
    requires forall f: FileId :: a.Get(f) == b.Get(f)
    ensures a == b
  {
    assert a.Get(ReleaseSet) == b.Get(ReleaseSet) && a.Get(EpochSelector) == b.Get(EpochSelector);
    assert a.Get(CoreBinding) == b.Get(CoreBinding) && a.Get(CoreSelector) == b.Get(CoreSelector);
    assert a.Get(CoreGate) == b.Get(CoreGate) && a.Get(RuntimeDropin) == b.Get(RuntimeDropin);
  }

  lemma SameUnits(a: PerUnit<UnitState>, b: PerUnit<UnitState>)
    requires forall u: UnitId :: a.Get(u) == b.Get(u)
    ensures a == b
  {
    assert a.Get(CoreService) == b.Get(CoreService) && a.Get(RuntimeSocket) == b.Get(RuntimeSocket)
        && a.Get(RuntimeService) == b.Get(RuntimeService);
  }

  // ----- Reloading before the files are back -----

  /** The three unit-configuration files put back, in the order of compensation. */
  function RestoreUnitFiles(z: Frozen, w: World): World {
    RestoreFile(RestoreFile(RestoreFile(w, RuntimeDropin, z.files.runtimeDropin).world,
                            CoreGate, z.files.coreGate).world,
                CoreSelector, z.files.coreSelector).world
  }

  predicate ChangesUnitConfig(z: Frozen) {
    exists f: FileId :: IsUnitConfig(f) && Published(z.files.Get(f), z.desired.Get(f)) != z.files.Get(f)
  }

  /** Compensating the reload after the files, as the program does, leaves the old configuration loaded.
      Reloading first, as strict reverse order would, leaves it so exactly when the activation changed
      none of it. */
  lemma ReloadAfterFiles(z: Frozen, l: Live, e: Env)
    requires WellFrozen(z) && Midway(z, l, Prefix(12))
    ensures
      var filesFirst := Compensate(z, l.(world := RestoreUnitFiles(z, l.world)), Reload, e).live.world;
      forall f: FileId | IsUnitConfig(f) :: filesFirst.loaded.Get(f) == filesFirst.files.Get(f) == z.files.Get(f)
    ensures
      var reloadFirst := RestoreUnitFiles(z, Compensate(z, l, Reload, e).live.world);
      NeedReload(reloadFirst) <==> ChangesUnitConfig(z)
  {
    hide Prefix;
    var w := Compensate(z, l, Reload, e).live.world;
    var r := RestoreUnitFiles(z, w);
    forall f: FileId ensures Index(PublishFile(f)) < 12 && w.files.Get(f) == Published(z.files.Get(f), z.desired.Get(f)) {
      PrefixHas(12, PublishFile(f));
      HasBy(Prefix(12));
    }
    assert r.loaded == w.files;
    assert forall f: FileId | IsUnitConfig(f) :: r.files.Get(f) == z.files.Get(f);
  }
}
