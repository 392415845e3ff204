/** The transaction drivers: each call reads the whole journal, does at most one thing to the host and
    writes at most two records.  Any call may be cut by a fault. */
module PhaseFDriver {
  import opened PhaseFWorld
  import opened PhaseFBackend
  import opened PhaseFProgram
  import opened PhaseFJournal

  /** What goes wrong during one call.  An exception from the host surfaces before or after the effect,
      or leaves a publish's temporary name behind; a journal write fails before it creates its file or
      leaves a torn one; a call of two writes can stop between them. */
  datatype Fault =
    | NoFault
    | BeforeEffect | AfterEffect | LeavesTemp
    | LosesWrite | TearsFirst | StopsAfterFirst | TearsSecond

  /** `torn` says the newest journal file is incomplete; `writes` counts calls of the writer. */
  datatype State = State(journal: seq<Record>, torn: bool, live: Live, writes: nat)

  /** `_s2_chain` succeeds.  A torn file lacks the closing newline that `_s2_parse` demands. */
  predicate Readable(s: State) {
    !s.torn && Accepted(s.journal)
  }

  // ----- Journal writes under a fault -----

  function Write(s: State, kind: Kind, step: StepId, f: Fault): State
    requires s.journal != []
  {
    match f
    case LosesWrite => s
    case TearsFirst => s.(torn := true)
    case _ => s.(journal := Append(s.journal, kind, step))
  }

  /** A record and, unless the call stopped first, TERMINAL_AMBIGUOUS after it. */
  function WriteAndClose(s: State, kind: Kind, step: StepId, f: Fault): State
    requires s.journal != []
  {
    var first := Write(s, kind, step, f);
    if f.LosesWrite? || f.TearsFirst? || f.StopsAfterFirst? then first
    else if f.TearsSecond? then first.(torn := true)
    else first.(journal := Append(first.journal, TerminalAmbiguous, NoStep))
  }

  // ----- Host effects under a fault -----

  /** `r` is what the backend would do from `before`.  A lost return keeps the effect on the host but
      not what the backend would have stored from it. */
  function Faulted(before: Live, r: Effect, file: Option<FileId>, f: Fault): Effect {
    match f
    case BeforeEffect => Effect(before, false)
    case AfterEffect => Effect(before.(world := r.live.world), false)
    case LeavesTemp =>
      if file.Some? then Effect(before.(world := before.world.(temps := before.world.temps + {file.value})), false)
      else Effect(before, false)
    case _ => r
  }

  function PublishedFile(op: Op): Option<FileId> {
    if op.PublishFile? then Some(op.file) else None
  }

  /** A restore goes through a temporary name only when there is a payload to put back. */
  function RestoredFile(z: Frozen, file: FileId): Option<FileId> {
    if z.files.Get(file).Present? then Some(file) else None
  }

  function CompensatedFile(z: Frozen, op: Op): Option<FileId> {
    if op.PublishFile? then RestoredFile(z, op.file) else None
  }

  function ForwardedFile(z: Frozen, op: ForwardOp): Option<FileId> {
    if op.RestoreOldFile? then RestoredFile(z, op.file) else None
  }

  // ----- The three drivers -----

  /** `_s2_recover_once`. */
  function ResumeCall(z: Frozen, s: State, e: Env, f: Fault): State {
    if !Readable(s) then s
    else
      var last := Last(s.journal);
      match last.kind
      case Gen0 => Write(s, OpIntent, Operation(ProgramOp(0)), f)
      case OpObserved(seen) =>
        if !seen.SeesDesired? || !last.step.Operation? then s
        else if Index(last.step.op) + 1 == SIZE then Write(s, WriterIntent, NoStep, f)
        else Write(s, OpIntent, Operation(ProgramOp(Index(last.step.op) + 1)), f)
      case OpIntent => Write(s, OpDispatched, last.step, f)
      case OpDispatched => if last.step.Operation? then ResumeDispatched(z, s, last.step.op, e, f) else s
      case WriterIntent => ResumeWriter(s, f)
      case _ => s
  }

  /** The operation is in flight: observe it, apply it if it is seen as OLD, observe it again.  An
      AMBIGUOUS answer is outside the driver's vocabulary, so the call raises and records nothing. */
  function ResumeDispatched(z: Frozen, s: State, op: Op, e: Env, f: Fault): State
    requires s.journal != []
  {
    var now := s.(live := Refresh(z, s.live, op));
    match Observe(z, s.live, op)
    case SeesAmbiguous => now
    case SeesDesired => Write(now, OpObserved(SeesDesired), Operation(op), f)
    case SeesOld =>
      var r := Faulted(now.live, Apply(z, now.live, op, e), PublishedFile(op), f);
      var after := now.(live := r.live);
      if r.returned then Reobserve(z, after, op, f) else after
  }

  function Reobserve(z: Frozen, s: State, op: Op, f: Fault): State
    requires s.journal != []
  {
    var now := s.(live := Refresh(z, s.live, op));
    match Observe(z, s.live, op)
    case SeesAmbiguous => now
    case SeesDesired => Write(now, OpObserved(SeesDesired), Operation(op), f)
    case SeesOld => WriteAndClose(now, OpObserved(SeesOld), Operation(op), f)
  }

  function ResumeWriter(s: State, f: Fault): State
    requires s.journal != []
  {
    var dispatched := Write(s, WriterDispatched, NoStep, f);
    if f.LosesWrite? || f.TearsFirst? || f.StopsAfterFirst? then dispatched
    else
      var invoked := dispatched.(writes := dispatched.writes + 1);
      if f.TearsSecond? then invoked.(torn := true)
      else if f.NoFault? then invoked.(journal := Append(invoked.journal, WriterReturned, NoStep))
      else invoked
  }

  /** `_s3_rollback_once`. */
  function RollbackCall(z: Frozen, s: State, e: Env, f: Fault): State {
    if !Readable(s) || Mentions(s.journal, WriterDispatched) then s
    else
      var last := Last(s.journal);
      var completed := CompletedOps(s.journal);
      if last.kind.TerminalOld? || last.kind.TerminalAmbiguous? then s
      else if completed == [] || completed != First(|completed|) then s
      else if !Mentions(s.journal, RollbackStarted) then
        if last.kind.OpIntent? || last.kind == OpObserved(SeesDesired) || last.kind.WriterIntent?
        then Write(s, RollbackStarted, NoStep, f)
        else s
      else
        var program := RollbackProgram(completed);
        var compensated := CompensatedOps(s.journal);
        if !(compensated <= program) then s
        else
          match last.kind
          case RollbackStarted => CompensateNext(z, s, program, compensated, f)
          case CompObserved(seen) => if seen.SeesOld? then CompensateNext(z, s, program, compensated, f) else s
          case CompIntent => Write(s, CompDispatched, last.step, f)
          case CompDispatched => if last.step.Operation? then CompensateDispatched(z, s, last.step.op, e, f) else s
          case _ => s
  }

  function CompensateNext(z: Frozen, s: State, program: seq<Op>, compensated: seq<Op>, f: Fault): State
    requires s.journal != [] && compensated <= program
  {
    if |compensated| == |program|
    then Write(s, if FullOld(z, s.live.world) then TerminalOld else TerminalAmbiguous, NoStep, f)
    else Write(s, CompIntent, Operation(program[|compensated|]), f)
  }

  function CompensateDispatched(z: Frozen, s: State, op: Op, e: Env, f: Fault): State
    requires s.journal != []
  {
    match ObserveCompensation(z, s.live, op)
    case SeesAmbiguous => s
    case SeesOld => Write(s, CompObserved(SeesOld), Operation(op), f)
    case SeesDesired =>
      var r := Faulted(s.live, Compensate(z, s.live, op, e), CompensatedFile(z, op), f);
      var after := s.(live := r.live);
      if r.returned then ReobserveCompensation(z, after, op, f) else after
  }

  function ReobserveCompensation(z: Frozen, s: State, op: Op, f: Fault): State
    requires s.journal != []
  {
    match ObserveCompensation(z, s.live, op)
    case SeesAmbiguous => s
    case SeesOld => Write(s, CompObserved(SeesOld), Operation(op), f)
    case SeesDesired => WriteAndClose(s, CompObserved(SeesAmbiguous), Operation(op), f)
  }

  /** `_s3_forward_old_once`. */
  function ForwardCall(z: Frozen, s: State, e: Env, f: Fault): State {
    if !Readable(s) || !Mentions(s.journal, WriterDispatched) then s
    else
      var last := Last(s.journal);
      if last.kind.TerminalOld? || last.kind.TerminalAmbiguous? then s
      else if !Mentions(s.journal, ForwardStarted) then
        if last.kind.WriterDispatched? || last.kind.WriterReturned? then Write(s, ForwardStarted, NoStep, f) else s
      else
        var completed := ForwardedOps(s.journal);
        if |completed| > FORWARD_SIZE || completed != FirstForward(|completed|) then s
        else
          match last.kind
          case ForwardStarted => ForwardNext(s, |completed|, f)
          case ForwardObserved(seen) => if seen.SeesDesired? then ForwardNext(s, |completed|, f) else s
          case ForwardIntent => Write(s, ForwardDispatched, last.step, f)
          case ForwardDispatched =>
            if last.step.ForwardOperation? then ForwardInFlight(z, s, last.step.forward, e, f) else s
          case _ => s
  }

  function ForwardNext(s: State, completed: nat, f: Fault): State
    requires s.journal != []
  {
    if completed == FORWARD_SIZE then Write(s, TerminalOld, NoStep, f)
    else Write(s, ForwardIntent, ForwardOperation(ForwardProgramOp(completed)), f)
  }

  function ForwardInFlight(z: Frozen, s: State, op: ForwardOp, e: Env, f: Fault): State
    requires s.journal != []
  {
    match ObserveForward(z, s.live, op, e)
    case SeesAmbiguous => s
    case SeesDesired => Write(s, ForwardObserved(SeesDesired), ForwardOperation(op), f)
    case SeesOld =>
      var r := Faulted(s.live, ApplyForward(z, s.live, op, e), ForwardedFile(z, op), f);
      var after := s.(live := r.live);
      if r.returned then ReobserveForward(z, after, op, e, f) else after
  }

  function ReobserveForward(z: Frozen, s: State, op: ForwardOp, e: Env, f: Fault): State
    requires s.journal != []
  {
    match ObserveForward(z, s.live, op, e)
    case SeesAmbiguous => s
    case SeesDesired => Write(s, ForwardObserved(SeesDesired), ForwardOperation(op), f)
    case SeesOld => WriteAndClose(s, ForwardObserved(SeesAmbiguous), ForwardOperation(op), f)
  }

  // ----- Runs -----

  datatype Action =
    | Resume(env: Env, fault: Fault)
    | Rollback(env: Env, fault: Fault)
    | ForwardOld(env: Env, fault: Fault)
    | HealthDrift(health: Health)

  /** A running container's health changes by itself. */
  function Drift(l: Live, health: Health): Live {
    if l.world.canonical.Some? && l.world.canonical.value.status.Running?
    then l.(world := l.world.(canonical := Some(l.world.canonical.value.(health := health))))
    else l
  }

  function Step(z: Frozen, s: State, a: Action): State {
    match a
    case Resume(e, f) => ResumeCall(z, s, e, f)
    case Rollback(e, f) => RollbackCall(z, s, e, f)
    case ForwardOld(e, f) => ForwardCall(z, s, e, f)
    case HealthDrift(h) => s.(live := Drift(s.live, h))
  }

  function Run(z: Frozen, s: State, actions: seq<Action>): State
    decreases |actions|
  {
    if actions == [] then s else Run(z, Step(z, s, actions[0]), actions[1..])
  }

  const GEN0 := Record(0, NoHash, Gen0, NoStep)

  /** A freshly initialised journal and a host exactly as frozen. */
  ghost predicate Initial(z: Frozen, s: State) {
    && z.upToDate && s.journal == [GEN0] && !s.torn && s.writes == 0
    && Midway(z, s.live, NOTHING)
  }
}
