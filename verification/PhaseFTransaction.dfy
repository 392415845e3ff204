/** `AtomicReleaseSetTransaction`: the journal directory as a field, and the three entry points as
    methods proved against the functions of PhaseFDriver. */
module PhaseFTransaction {
  import opened PhaseFWorld
  import opened PhaseFBackend
  import opened PhaseFProgram
  import opened PhaseFJournal
  import opened PhaseFDriver
  import opened PhaseFInvariant
  import opened PhaseFLiveBackend

  // ----- What a journal write achieves -----

  /** A reader takes what a write leaves behind: nothing was written, or the whole record was and it is
      the one expected there. */
  predicate Takes(j: seq<Record>, kind: Kind, step: StepId, f: Fault)
    requires Accepted(j)
  {
    f.LosesWrite? || (!f.TearsFirst? && Parses(Next(j, kind, step)) && ScanStep(Checked(j), Next(j, kind, step)).Some?)
  }

  lemma WriteTaken(s: State, kind: Kind, step: StepId, f: Fault)
    requires Readable(s)
    ensures Readable(Write(s, kind, step, f)) <==> Takes(s.journal, kind, step, f)
  {
    hide ScanStep, Parses;
    AppendAccepted(s.journal, kind, step);
  }

  lemma WriterMark(j: seq<Record>)
    requires Accepted(j)
    ensures Mentions(j, WriterDispatched) <==> PastWriter(Checked(j))
    ensures Checked(j).expected.XWriterDispatched? ==> !PastWriter(Checked(j))
  {
    hide Accepted, Mentions, ReadsBack, First, FirstForward, RollbackProgram, ProgramOp, ForwardProgramOp;
    AcceptedView(j);
  }

  /** The writer is called at most once, and then the journal says so. */
  lemma WriterOnce(z: Frozen, s: State, f: Fault)
    requires Held(z, s) && Checked(s.journal).expected.XWriterDispatched?
    ensures
      var s' := ResumeWriter(s, f);
      && Held(z, s') && s.writes == 0 && s'.writes <= 1
      && (s'.writes == 1 ==> Mentions(s'.journal, WriterDispatched))
  {
    hide LiveAt, Checked, Mentions, ResumeWriter, PastWriter;
    ResumeWriterInv(z, s, f);
    WriterMark(s.journal);
    WriterMark(ResumeWriter(s, f).journal);
  }

  // ----- The class -----

  class Transaction {
    const backend: LiveBackend
    var journal: seq<Record>
    var torn: bool
    var writerCalls: nat

    ghost function Now(): State
      reads this, backend, backend.host
    {
      State(journal, torn, backend.Snapshot(), writerCalls)
    }

    /** `_s2_initialize` on an empty directory. */
    constructor (backend: LiveBackend)
      ensures this.backend == backend && journal == [GEN0] && !torn && writerCalls == 0
    {
      this.backend := backend;
      this.journal := [GEN0];
      this.torn := false;
      this.writerCalls := 0;
    }

    /** `_s2_chain`: sequence numbers without a gap, every record well formed and linked to the digest of
        its predecessor, then the transition check. */
    method ReadChain() returns (readable: bool)
      ensures readable <==> Readable(Now())
    {
      if torn || journal == [] {
        return false;
      }
      var predecessor := NoHash;
      var i := 0;
      while i < |journal|
        invariant 0 <= i <= |journal|
        invariant forall k | 0 <= k < i :: LinkedAt(journal, k)
        invariant forall k | 0 <= k < i :: Parses(journal[k])
        invariant predecessor == if i == 0 then NoHash else Sha(journal[i - 1])
      {
        if journal[i].sequence != i || journal[i].predecessor != predecessor || !Parses(journal[i]) {
          assert journal[i] in journal;
          assert !LinkedAt(journal, i) || !Parses(journal[i]);
          return false;
        }
        predecessor := Sha(journal[i]);
        i := i + 1;
      }
      readable := ValidateTransitions(journal);
    }

    /** `_s2_write`. */
    method Publish(kind: Kind, step: StepId, f: Fault)
      requires journal != []
      modifies this
      ensures Now() == Write(old(Now()), kind, step, f)
    {
      if f.LosesWrite? {
        return;
      }
      if f.TearsFirst? {
        torn := true;
        return;
      }
      journal := journal + [Record(|journal|, Sha(journal[|journal| - 1]), kind, step)];
    }

    method PublishAndClose(kind: Kind, step: StepId, f: Fault)
      requires journal != []
      modifies this
      ensures Now() == WriteAndClose(old(Now()), kind, step, f)
    {
      Publish(kind, step, f);
      if f.LosesWrite? || f.TearsFirst? || f.StopsAfterFirst? {
        return;
      }
      if f.TearsSecond? {
        torn := true;
        return;
      }
      Publish(TerminalAmbiguous, NoStep, NoFault);
    }

    /** What a fault does to a host mutation that was to run with the stored fields as they are now. */
    method Fail(file: Option<FileId>, f: Fault)
      modifies backend.host
      ensures Now() == old(Now()).(live := Faulted(old(backend.Snapshot()), Effect(old(backend.Snapshot()), true), file,
                                                   if f.LeavesTemp? then LeavesTemp else BeforeEffect).live)
    {
      if f.LeavesTemp? && file.Some? {
        backend.host.world := backend.host.world.(temps := backend.host.world.temps + {file.value});
      }
    }

    method Apply(op: Op, e: Env, f: Fault) returns (returned: bool)
      modifies backend, backend.host
      ensures
        var r := Faulted(old(backend.Snapshot()), PhaseFBackend.Apply(backend.frozen, old(backend.Snapshot()), op, e),
                         PublishedFile(op), f);
        returned == r.returned && Now() == old(Now()).(live := r.live)
    {
      if f.BeforeEffect? || f.LeavesTemp? {
        Fail(PublishedFile(op), f);
        return false;
      }
      var target, recovered := backend.targetObservation, backend.startupRecovered;
      returned := backend.ApplyOperation(op, e);
      if f.AfterEffect? {
        backend.targetObservation, backend.startupRecovered := target, recovered;
        returned := false;
      }
    }

    method Compensate(op: Op, e: Env, f: Fault) returns (returned: bool)
      modifies backend, backend.host
      ensures
        var r := Faulted(old(backend.Snapshot()), PhaseFBackend.Compensate(backend.frozen, old(backend.Snapshot()), op, e),
                         CompensatedFile(backend.frozen, op), f);
        returned == r.returned && Now() == old(Now()).(live := r.live)
    {
      if f.BeforeEffect? || f.LeavesTemp? {
        Fail(CompensatedFile(backend.frozen, op), f);
        return false;
      }
      var target, recovered := backend.targetObservation, backend.startupRecovered;
      returned := backend.CompensateOperation(op, e);
      if f.AfterEffect? {
        backend.targetObservation, backend.startupRecovered := target, recovered;
        returned := false;
      }
    }

    method ApplyForwardOld(op: ForwardOp, e: Env, f: Fault) returns (returned: bool)
      modifies backend, backend.host
      ensures
        var r := Faulted(old(backend.Snapshot()), PhaseFBackend.ApplyForward(backend.frozen, old(backend.Snapshot()), op, e),
                         ForwardedFile(backend.frozen, op), f);
        returned == r.returned && Now() == old(Now()).(live := r.live)
    {
      if f.BeforeEffect? || f.LeavesTemp? {
        Fail(ForwardedFile(backend.frozen, op), f);
        return false;
      }
      var target, recovered := backend.targetObservation, backend.startupRecovered;
      returned := backend.ApplyForwardOld(op, e);
      if f.AfterEffect? {
        backend.targetObservation, backend.startupRecovered := target, recovered;
        returned := false;
      }
    }

    /** `resume_once`. */
    method ResumeOnce(e: Env, f: Fault)
      modifies this, backend, backend.host
      ensures Now() == ResumeCall(backend.frozen, old(Now()), e, f)
    {
      var readable := ReadChain();
      if !readable {
        return;
      }
      var last := Last(journal);
      match last.kind
      case Gen0 => Publish(OpIntent, Operation(ProgramOp(0)), f);
      case OpObserved(seen) =>
        if seen.SeesDesired? && last.step.Operation? {
          var index := Index(last.step.op) + 1;
          if index == SIZE {
            Publish(WriterIntent, NoStep, f);
          } else {
            Publish(OpIntent, Operation(ProgramOp(index)), f);
          }
        }
      case OpIntent => Publish(OpDispatched, last.step, f);
      case OpDispatched =>
        if last.step.Operation? {
          ResumeInFlight(last.step.op, e, f);
        }
      case WriterIntent => InvokeWriter(f);
      case _ =>
    }

    method ResumeInFlight(op: Op, e: Env, f: Fault)
      requires journal != []
      modifies this, backend, backend.host
      ensures Now() == ResumeDispatched(backend.frozen, old(Now()), op, e, f)
    {
      hide Observe, Refresh, PhaseFBackend.Apply, Faulted, Write, Reobserve, Advanced, WellFrozen;
      var seen := backend.ObserveOperation(op);
      if seen.SeesDesired? {
        Publish(OpObserved(SeesDesired), Operation(op), f);
      } else if seen.SeesOld? {
        var returned := Apply(op, e, f);
        if returned {
          ObserveAgain(op, f);
        }
      }
    }

    method ObserveAgain(op: Op, f: Fault)
      requires journal != []
      modifies this, backend
      ensures Now() == Reobserve(backend.frozen, old(Now()), op, f)
    {
      hide Observe, Refresh, Write, WriteAndClose;
      var seen := backend.ObserveOperation(op);
      match seen
      case SeesAmbiguous =>
      case SeesDesired => Publish(OpObserved(SeesDesired), Operation(op), f);
      case SeesOld => PublishAndClose(OpObserved(SeesOld), Operation(op), f);
    }

    method InvokeWriter(f: Fault)
      requires journal != []
      modifies this
      ensures Now() == ResumeWriter(old(Now()), f)
      ensures Held(backend.frozen, old(Now())) && Checked(old(journal)).expected.XWriterDispatched? ==>
                && Held(backend.frozen, Now()) && old(writerCalls) == 0 && writerCalls <= 1
                && (writerCalls == 1 ==> Mentions(journal, WriterDispatched))
    {
      hide Accepted, Checked, Mentions, LiveAt;
      if Held(backend.frozen, Now()) && Checked(journal).expected.XWriterDispatched? {
        WriterOnce(backend.frozen, Now(), f);
      }
      Publish(WriterDispatched, NoStep, f);
      if f.LosesWrite? || f.TearsFirst? || f.StopsAfterFirst? {
        return;
      }
      writerCalls := writerCalls + 1;
      if f.TearsSecond? {
        torn := true;
      } else if f.NoFault? {
        Publish(WriterReturned, NoStep, NoFault);
      }
    }

    /** `rollback_once`. */
    method RollbackOnce(e: Env, f: Fault)
      modifies this, backend, backend.host
      ensures Now() == RollbackCall(backend.frozen, old(Now()), e, f)
    {
      var readable := ReadChain();
      if !readable || Mentions(journal, WriterDispatched) {
        return;
      }
      var last := Last(journal);
      if last.kind.TerminalOld? || last.kind.TerminalAmbiguous? {
        return;
      }
      var completed := CompletedOps(journal);
      if completed == [] || completed != First(|completed|) {
        return;
      }
      if !Mentions(journal, RollbackStarted) {
        if last.kind.OpIntent? || last.kind == OpObserved(SeesDesired) || last.kind.WriterIntent? {
          Publish(RollbackStarted, NoStep, f);
        }
        return;
      }
      var program := RollbackProgram(completed);
      var compensated := CompensatedOps(journal);
      if !(compensated <= program) {
        return;
      }
      match last.kind
      case RollbackStarted => CompensateOrClose(program, compensated, f);
      case CompObserved(seen) => if seen.SeesOld? { CompensateOrClose(program, compensated, f); }
      case CompIntent => Publish(CompDispatched, last.step, f);
      case CompDispatched => if last.step.Operation? { CompensateInFlight(last.step.op, e, f); }
      case _ =>
    }

    method CompensateOrClose(program: seq<Op>, compensated: seq<Op>, f: Fault)
      requires journal != [] && compensated <= program
      modifies this
      ensures Now() == CompensateNext(backend.frozen, old(Now()), program, compensated, f)
    {
      if |compensated| == |program| {
        var first := backend.ObserveFullOld();
        var second := backend.ObserveFullOld();
        if !first.SeesOld? || !second.SeesOld? {
          Publish(TerminalAmbiguous, NoStep, f);
        } else {
          Publish(TerminalOld, NoStep, f);
        }
      } else {
        Publish(CompIntent, Operation(program[|compensated|]), f);
      }
    }

    method CompensateInFlight(op: Op, e: Env, f: Fault)
      requires journal != []
      modifies this, backend, backend.host
      ensures Now() == CompensateDispatched(backend.frozen, old(Now()), op, e, f)
    {
      hide ObserveCompensation, PhaseFBackend.Compensate, Faulted, Write, ReobserveCompensation, Tells, TakenBack,
        WellFrozen;
      var seen := backend.ObserveCompensation(op);
      if seen.SeesOld? {
        Publish(CompObserved(SeesOld), Operation(op), f);
      } else if seen.SeesDesired? {
        var returned := Compensate(op, e, f);
        if returned {
          ObserveCompensationAgain(op, f);
        }
      }
    }

    method ObserveCompensationAgain(op: Op, f: Fault)
      requires journal != []
      modifies this
      ensures Now() == ReobserveCompensation(backend.frozen, old(Now()), op, f)
    {
      hide ObserveCompensation, Write, WriteAndClose, Tells, WellFrozen;
      var seen := backend.ObserveCompensation(op);
      match seen
      case SeesAmbiguous =>
      case SeesOld => Publish(CompObserved(SeesOld), Operation(op), f);
      case SeesDesired => PublishAndClose(CompObserved(SeesAmbiguous), Operation(op), f);
    }

    /** `forward_old_once`. */
    method ForwardOldOnce(e: Env, f: Fault)
      modifies this, backend, backend.host
      ensures Now() == ForwardCall(backend.frozen, old(Now()), e, f)
    {
      var readable := ReadChain();
      if !readable || !Mentions(journal, WriterDispatched) {
        return;
      }
      var last := Last(journal);
      if last.kind.TerminalOld? || last.kind.TerminalAmbiguous? {
        return;
      }
      if !Mentions(journal, ForwardStarted) {
        if last.kind.WriterDispatched? || last.kind.WriterReturned? {
          Publish(ForwardStarted, NoStep, f);
        }
        return;
      }
      var completed := ForwardedOps(journal);
      if |completed| > FORWARD_SIZE || completed != FirstForward(|completed|) {
        return;
      }
      match last.kind
      case ForwardStarted => RestoreOrClose(|completed|, f);
      case ForwardObserved(seen) => if seen.SeesDesired? { RestoreOrClose(|completed|, f); }
      case ForwardIntent => Publish(ForwardDispatched, last.step, f);
      case ForwardDispatched => if last.step.ForwardOperation? { RestoreInFlight(last.step.forward, e, f); }
      case _ =>
    }

    method RestoreOrClose(completed: nat, f: Fault)
      requires journal != []
      modifies this
      ensures Now() == ForwardNext(old(Now()), completed, f)
    {
      if completed == FORWARD_SIZE {
        Publish(TerminalOld, NoStep, f);
      } else {
        Publish(ForwardIntent, ForwardOperation(ForwardProgramOp(completed)), f);
      }
    }

    method RestoreInFlight(op: ForwardOp, e: Env, f: Fault)
      requires journal != []
      modifies this, backend, backend.host
      ensures Now() == ForwardInFlight(backend.frozen, old(Now()), op, e, f)
    {
      hide ObserveForward, ApplyForward, Faulted, Write, ReobserveForward, TellsForward, MovedForward, WellFrozen;
      var seen := backend.ObserveForwardOld(op, e);
      if seen.SeesDesired? {
        Publish(ForwardObserved(SeesDesired), ForwardOperation(op), f);
      } else if seen.SeesOld? {
        var returned := ApplyForwardOld(op, e, f);
        if returned {
          ObserveForwardAgain(op, e, f);
        }
      }
    }

    method ObserveForwardAgain(op: ForwardOp, e: Env, f: Fault)
      requires journal != []
      modifies this
      ensures Now() == ReobserveForward(backend.frozen, old(Now()), op, e, f)
    {
      hide ObserveForward, Write, WriteAndClose, TellsForward, WellFrozen;
      var seen := backend.ObserveForwardOld(op, e);
      match seen
      case SeesAmbiguous =>
      case SeesDesired => Publish(ForwardObserved(SeesDesired), ForwardOperation(op), f);
      case SeesOld => PublishAndClose(ForwardObserved(SeesAmbiguous), ForwardOperation(op), f);
    }
  }
}
