/** What the phase-F transaction guarantees over every run, and where a natural reading of it fails. */
module PhaseFTheorems {
  import opened PhaseFWorld
  import opened PhaseFBackend
  import opened PhaseFProgram
  import opened PhaseFJournal
  import opened PhaseFDriver
  import opened PhaseFForwardOld
  import opened PhaseFInvariant

  // ----- The beginning -----

  /** The host that a backend built now would call old: no leftover temporary name, nothing archived, and
      systemd up to date with the disk. */
  predicate Settled(w: World) {
    w.temps == {} && w.archived.None? && w.canonical.Some? && !NeedReload(w)
  }

  /** What the constructor freezes on such a host. */
  function FrozenFrom(w: World, desired: PerFile<Bytes>, target: Target): Frozen
    requires w.canonical.Some?
  {
    Frozen(w.files, w.units, w.canonical.value, Network(w.network, Members(w)), desired, target, !NeedReload(w))
  }

  /** Every settled host is a beginning: what the theorems below say of runs from `Initial` they say of
      every transaction whose backend is built before its first operation. */
  lemma BuiltIsInitial(w: World, desired: PerFile<Bytes>, target: Target)
    requires Settled(w)
    ensures Initial(FrozenFrom(w, desired, target), State([GEN0], false, Live(w, None, false), 0))
  {
    var z := FrozenFrom(w, desired, target);
    forall f: FileId | IsUnitConfig(f) ensures w.loaded.Get(f) == z.files.Get(f) {
      assert w.loaded.Get(f) == w.files.Get(f);
    }
  }

  // ----- The journal -----

  predicate Closes(z: Frozen, s: State, a: Action) {
    a.Rollback? && ClosesAmbiguous(z, s, a.fault)
  }

  /** The drivers keep their own journal acceptable, except in one case: a rollback that has compensated
      everything and does not see the old state closes the journal with a record the transition check
      does not take there. */
  lemma StepKeepsJournal(z: Frozen, s: State, a: Action)
    requires WellFrozen(z) && Held(z, s)
    ensures Accepted(Step(z, s, a).journal) <==> !Closes(z, s, a)
  {
    hide WellFrozen, Sound, ResumeCall, RollbackCall, ForwardCall;
    match a
    case Resume(e, f) => ResumeInv(z, s, e, f);
    case Rollback(e, f) =>
      RollbackInv(z, s, e, f);
      if Closes(z, s, a) { PoisonedIsRejected(RollbackCall(z, s, e, f).journal); }
    case ForwardOld(e, f) => ForwardInv(z, s, e, f);
    case HealthDrift(h) =>
  }

  /** That case arises exactly when the old container has not recovered its frozen health. */
  lemma ClosesOnlyUnhealthy(z: Frozen, s: State, f: Fault)
    requires WellFrozen(z) && Held(z, s) && Readable(s) && !f.LosesWrite? && !f.TearsFirst?
    requires Checked(s.journal).mode.Rollback? && Checked(s.journal).expected.XTerminalOld?
    ensures s.live.world.canonical.Some?
    ensures ClosesAmbiguous(z, s, f) <==> s.live.world.canonical.value.health != z.container.health
  {
    hide WellFrozen, Accepted, Checked;
    AcceptedShape(s.journal);
    RollbackEnds(Checked(s.journal).activation);
    FullyCompensated(z, s.live);
  }

  /** A journal that stopped being readable stays as it is, and so does everything the drivers could
      touch: nothing is guessed and nothing is undone. */
  lemma {:induction false} UnreadableForever(z: Frozen, s: State, actions: seq<Action>)
    requires !Readable(s)
    ensures
      var s' := Run(z, s, actions);
      && s'.journal == s.journal && s'.torn == s.torn && s'.writes == s.writes
      && SameButHealth(s.live, s'.live)
    decreases |actions|
  {
    if actions != [] {
      var s1 := Step(z, s, actions[0]);
      if !actions[0].HealthDrift? { Unreadable(z, s, actions[0]); }
      UnreadableForever(z, s1, actions[1..]);
    }
  }

  ghost predicate SameButHealth(l: Live, l': Live) {
    && l'.world.(canonical := None) == l.world.(canonical := None)
    && (l'.world.canonical.Some? <==> l.world.canonical.Some?)
    && (l'.world.canonical.Some? ==>
          l'.world.canonical.value == l.world.canonical.value.(health := l'.world.canonical.value.health))
    && l'.recovered == l.recovered
  }

  // ----- The writer -----

  /** Over every run the writer is called at most once; the call is announced in the journal first, and
      only after all eighteen operations were recorded DESIRED. */
  lemma WriterAtMostOnce(z: Frozen, s: State, actions: seq<Action>)
    requires WellFrozen(z) && Initial(z, s)
    ensures
      var s' := Run(z, s, actions);
      && s'.writes <= 1
      && (s'.writes == 1 ==> Mentions(s'.journal, WriterDispatched) && CompletedOps(s'.journal) == First(SIZE))
  {
    hide WellFrozen, LiveAt, Accepted, Checked;
    InitialInv(z, s);
    RunInv(z, s, actions);
    var s' := Run(z, s, actions);
    if Held(z, s') {
      RollbackReads(s'.journal);
    } else {
      PoisonedNoWriter(z, s');
    }
  }

  lemma PoisonedNoWriter(z: Frozen, s: State)
    requires Inv(z, s) && !Held(z, s)
    ensures s.writes == 0
  {
    hide LiveAt;
    RollbackReads(s.journal[..|s.journal| - 1]);
  }

  /** At the moment of the call every operation is in effect on the host. */
  lemma WriterSeesTarget(z: Frozen, s: State, a: Action)
    requires WellFrozen(z) && Held(z, s) && Step(z, s, a).writes != s.writes
    ensures Midway(z, s.live, Prefix(SIZE))
  {
    hide WellFrozen, Prefix, Midway, Accepted, Checked, RollbackCall, ForwardCall;
    AcceptedShape(s.journal);
    NoWriter(z, s, a);
  }

  lemma NoWriter(z: Frozen, s: State, a: Action)
    ensures Step(z, s, a).writes != s.writes ==> a.Resume? && Readable(s) && Last(s.journal).kind.WriterIntent?
  {
    hide Accepted, ResumeCall, RollbackCall, ForwardCall;
    match a
    case Resume(e, f) => ResumeWrites(z, s, e, f);
    case Rollback(e, f) => RollbackWrites(z, s, e, f);
    case ForwardOld(e, f) => ForwardWrites(z, s, e, f);
    case HealthDrift(_) =>
  }

  lemma ResumeWrites(z: Frozen, s: State, e: Env, f: Fault)
    ensures ResumeCall(z, s, e, f).writes != s.writes ==> Readable(s) && Last(s.journal).kind.WriterIntent?
  {
    hide Accepted, Observe, Refresh, Apply, Faulted, ProgramOp, Index;
  }

  lemma RollbackWrites(z: Frozen, s: State, e: Env, f: Fault)
    ensures RollbackCall(z, s, e, f).writes == s.writes
  {
    hide Accepted, ObserveCompensation, Compensate, Faulted, Mentions, CompletedOps, CompensatedOps, First,
      RollbackProgram, FullOld;
  }

  lemma ForwardWrites(z: Frozen, s: State, e: Env, f: Fault)
    ensures ForwardCall(z, s, e, f).writes == s.writes
  {
    hide Accepted, ObserveForward, ApplyForward, Faulted, Mentions, ForwardedOps, FirstForward, ForwardProgramOp;
  }

  /** Once the writer is announced the way back is closed: resuming and rolling back do nothing. */
  lemma PastWriterOnlyForward(z: Frozen, s: State, e: Env, f: Fault)
    requires Held(z, s) && Mentions(s.journal, WriterDispatched)
    ensures RollbackCall(z, s, e, f) == s
    ensures ResumeCall(z, s, e, f) == s
  {
    hide Midway, LiveAt, Accepted, Checked, ProgramOp, ForwardProgramOp, RollbackProgram;
    RollbackReads(s.journal);
  }

  // ----- What TERMINAL_OLD means -----

  predicate EndsOld(s: State) {
    s.journal != [] && Last(s.journal).kind.TerminalOld?
  }

  /** Over every run, a journal that ends in TERMINAL_OLD is telling the truth about the host: six files
      byte- and metadata-exact, three unit tuples, the old container back under its name with its
      status, and the configuration systemd has loaded equal to the files on disk. */
  lemma TerminalOldIsOld(z: Frozen, s: State, actions: seq<Action>)
    requires WellFrozen(z) && Initial(z, s)
    requires EndsOld(Run(z, s, actions))
    ensures
      var l := Run(z, s, actions).live;
      && Midway(z, l, NOTHING) && FilesOld(z, l.world) && UnitsOld(z, l.world) && !NeedReload(l.world)
      && (FullOld(z, l.world) <==> l.world.canonical.value.health == z.container.health)
  {
    hide WellFrozen, Accepted, Checked;
    InitialInv(z, s);
    RunInv(z, s, actions);
    var s' := Run(z, s, actions);
    HeldTerminal(z, s');
    FullyCompensated(z, s'.live);
  }

  lemma HeldTerminal(z: Frozen, s: State)
    requires Inv(z, s) && EndsOld(s)
    ensures Held(z, s) && Midway(z, s.live, NOTHING)
    ensures Checked(s.journal).mode.Forwarding? ==> !NeedReload(s.live.world)
  {
    hide Accepted, Midway, Prefix, RollbackProgram, ProgramOp, ForwardProgramOp;
    var v := Checked(s.journal);
    AcceptedShape(s.journal);
    assert v.expected.XClosed?;
    if v.mode.Rollback? { RollbackEnds(v.activation); } else { ForwardEnds(FORWARD_SIZE); }
  }
}
