/** The twenty-two forward-to-old steps, on the same part-way states. */
module PhaseFForwardOld {
  import opened PhaseFWorld
  import opened PhaseFBackend
  import opened PhaseFProgram

  /** What is still in effect after the first `n` forward-to-old steps. */
  function ForwardDone(n: nat): Done {
    Done(PerUnit(n < 11, n < 12, n < 13), PerUnit(n < 11, n < 12, n < 13),
         PerFile(n < 4, n < 5, n < 6, n < 7, n < 8, n < 9), n < 10, n < 15, n < 3, n < 2, n < 2, n < 1)
  }

  lemma ForwardEnds(n: nat)
    requires 15 <= n
    ensures ForwardDone(n) == NOTHING
  {
  }

  /** Forward-to-old starts where the whole activation program ends. */
  lemma ForwardBegins()
    ensures Prefix(SIZE) == ForwardDone(0)
  {
    forall op: Op ensures Has(Prefix(SIZE), op) {
      PrefixHas(SIZE, op);
      Positions(op);
    }
    Everything(Prefix(SIZE));
  }

  lemma Everything(s: Done)
    requires forall op: Op :: Has(s, op)
    ensures s == ForwardDone(0)
  {
    HasBy(s);
    assert forall u: UnitId :: Has(s, StopUnit(u)) && Has(s, StartUnit(u));
    assert forall f: FileId :: Has(s, PublishFile(f));
    assert s.stopped == PerUnit(s.stopped.Get(CoreService), s.stopped.Get(RuntimeSocket), s.stopped.Get(RuntimeService));
    assert s.started == PerUnit(s.started.Get(CoreService), s.started.Get(RuntimeSocket), s.started.Get(RuntimeService));
    assert s.published == PerFile(
      s.published.Get(ReleaseSet), s.published.Get(EpochSelector), s.published.Get(CoreBinding),
      s.published.Get(CoreSelector), s.published.Get(CoreGate), s.published.Get(RuntimeDropin));
  }

  /** Why a step may be refused although every earlier step is in effect: the old container has not
      recovered its frozen health, or readiness is not established. */
  predicate Waits(z: Frozen, l: Live, op: ForwardOp, e: Env) {
    match op
    case StartupRecover => !FullOld(z, l.world)
    case ObserveReadiness(_) => !e.ready
    case ObserveIngress(_) => !IngressOld(z, l.world)
    case ObserveFullOld(_) => !FullOld(z, l.world)
    case _ => false
  }

  /** A step meets AMBIGUOUS only for the reasons in `Waits`; otherwise it ends in effect. */
  ghost predicate Restores(z: Frozen, l: Live, n: nat, e: Env)
    requires n < FORWARD_SIZE
  {
    var op := ForwardProgramOp(n);
    var seen := ObserveForward(z, l, op, e);
    && (seen.SeesAmbiguous? <==> Waits(z, l, op, e))
    && (seen.SeesDesired? ==> Midway(z, l, ForwardDone(n + 1)))
    && (seen.SeesOld? ==>
          var r := ApplyForward(z, l, op, e);
          && Midway(z, r.live, ForwardDone(n + 1))
          && (r.returned <==> op.StartupRecover? ==> e.recovers)
          && (r.returned ==> ObserveForward(z, r.live, op, e).SeesDesired?))
  }

  lemma ForwardOldStep(z: Frozen, l: Live, n: nat, e: Env)
    requires WellFrozen(z) && n < FORWARD_SIZE && Midway(z, l, ForwardDone(n))
    ensures Restores(z, l, n, e)
  {
    if n < 3 { RestoreContainerStep(z, l, n, e); }
    else if n < 9 { RestoreFileStep(z, l, n, e); }
    else if n < 13 { RestoreUnitStep(z, l, n, e); }
    else if n < 15 { RestoreRunningStep(z, l, n, e); }
    else { ObservationStep(z, l, n, e); }
  }

  lemma RestoreContainerStep(z: Frozen, l: Live, n: nat, e: Env)
    requires WellFrozen(z) && n < 3 && Midway(z, l, ForwardDone(n))
    ensures Restores(z, l, n, e)
  {
    Frame(z, l, ForwardDone(n), l, ForwardDone(n + 1));
    Frame(z, l, ForwardDone(n), ApplyForward(z, l, ForwardProgramOp(n), e).live, ForwardDone(n + 1));
  }

  lemma RestoreFileStep(z: Frozen, l: Live, n: nat, e: Env)
    requires WellFrozen(z) && 3 <= n < 9 && Midway(z, l, ForwardDone(n))
    ensures Restores(z, l, n, e)
  {
    var f := ForwardProgramOp(n).file;
    var r := ApplyForward(z, l, ForwardProgramOp(n), e).live;
    RestoreAt(z, l.world, ForwardDone(n), f);
    assert Without(ForwardDone(n), PublishFile(f)) == ForwardDone(n + 1);
    Frame(z, l, ForwardDone(n), l, ForwardDone(n + 1));
    Frame(z, l, ForwardDone(n), r, ForwardDone(n + 1));
  }

  lemma RestoreUnitStep(z: Frozen, l: Live, n: nat, e: Env)
    requires WellFrozen(z) && 9 <= n < 13 && Midway(z, l, ForwardDone(n))
    ensures Restores(z, l, n, e)
  {
    Frame(z, l, ForwardDone(n), l, ForwardDone(n + 1));
    Frame(z, l, ForwardDone(n), ApplyForward(z, l, ForwardProgramOp(n), e).live, ForwardDone(n + 1));
    assert forall f: FileId :: l.world.files.Get(f) == z.files.Get(f);
  }

  lemma RestoreRunningStep(z: Frozen, l: Live, n: nat, e: Env)
    requires WellFrozen(z) && 13 <= n < 15 && Midway(z, l, ForwardDone(n))
    ensures Restores(z, l, n, e)
  {
    Frame(z, l, ForwardDone(n), l, ForwardDone(n + 1));
    Frame(z, l, ForwardDone(n), ApplyForward(z, l, ForwardProgramOp(n), e).live, ForwardDone(n + 1));
  }

  lemma ObservationStep(z: Frozen, l: Live, n: nat, e: Env)
    requires WellFrozen(z) && 15 <= n < FORWARD_SIZE && Midway(z, l, ForwardDone(n))
    ensures Restores(z, l, n, e)
  {
    hide FilesAt, LoadedAt, UnitsAt, FullOld, IngressOld;
    ForwardEnds(n);
    ForwardEnds(n + 1);
    assert ApplyForward(z, l, ForwardProgramOp(n), e).live.world == l.world;
  }

  /** A step whose return was lost is seen as DESIRED when it is observed again, with two exceptions: the
      backend has not noted a startup recovery that did not return, so that step is run again, and so is
      perhaps the reload on a host that was not up to date at first. */
  lemma AlreadyRestored(z: Frozen, l: Live, n: nat, e: Env)
    requires WellFrozen(z) && n < 16 && Midway(z, l, ForwardDone(n + 1))
    ensures n < 15 && (n == 9 ==> z.upToDate) ==> ObserveForward(z, l, ForwardProgramOp(n), e).SeesDesired?
    ensures n == 15 && FullOld(z, l.world) ==>
              (ObserveForward(z, l, ForwardProgramOp(n), e).SeesOld? <==> !l.recovered)
  {
    var op := ForwardProgramOp(n);
    match op
    case RestoreOldFile(f) => assert l.world.files.Get(f) == z.files.Get(f);
    case RestoreUnit(u) => assert l.world.units.Get(u) == z.units.Get(u);
    case ReloadOld => assert forall f: FileId :: l.world.files.Get(f) == z.files.Get(f);
    case _ =>
  }

  /** Repeating the reload is harmless. */
  lemma ReloadAgain(z: Frozen, l: Live, e: Env)
    requires WellFrozen(z) && Midway(z, l, ForwardDone(10))
    ensures
      var op := ForwardProgramOp(9);
      var r := ApplyForward(z, l, op, e);
      && !ObserveForward(z, l, op, e).SeesAmbiguous?
      && r.returned && ObserveForward(z, r.live, op, e).SeesDesired? && Midway(z, r.live, ForwardDone(10))
  {
    assert forall f: FileId :: l.world.files.Get(f) == z.files.Get(f);
    Frame(z, l, ForwardDone(10), ApplyForward(z, l, ReloadOld, e).live, ForwardDone(10));
  }

  // ----- From anywhere -----

  /** The host after the first `n` steps when nothing was known about it at first but that the old
      container is archived and stopped and the canonical name is free or held by this plan's target:
      files, units and loaded configuration start out arbitrary. */
  ghost predicate Recovering(z: Frozen, l: Live, n: nat) {
    var w := l.world;
    && w.temps == {} && w.network == z.network.identity && z.network.members == w.foreign + Joined(Some(z.container))
    && (if n < 3 then
          && OldAt(z, w.archived, true)
          && (w.canonical.None?
              || (n < 2 && TargetMatches(z.target, w.canonical)
                  && (IsStopped(w.canonical.value) || (n == 0 && w.canonical.value.status.Running?))))
        else w.archived.None? && OldAt(z, w.canonical, n < 15))
    && (forall f: FileId | 3 + FileIndex(f) < n :: w.files.Get(f) == z.files.Get(f))
    && (n >= 10 ==> forall f: FileId | IsUnitConfig(f) :: w.loaded.Get(f) == z.files.Get(f))
    && (n >= 11 ==> w.units.Get(CoreService) == z.units.Get(CoreService))
    && (n >= 12 ==> w.units.Get(RuntimeSocket) == z.units.Get(RuntimeSocket))
    && (n >= 13 ==> w.units.Get(RuntimeService) == z.units.Get(RuntimeService))
  }

  /** Observe, and apply what is seen as OLD. */
  function Recover(z: Frozen, l: Live, n: nat, e: Env): Live
    requires n < FORWARD_SIZE
  {
    var op := ForwardProgramOp(n);
    if ObserveForward(z, l, op, e).SeesOld? then ApplyForward(z, l, op, e).live else l
  }

  function RecoverAll(z: Frozen, l: Live, n: nat, e: Env): Live
    requires n <= FORWARD_SIZE
  {
    if n == 0 then l else Recover(z, RecoverAll(z, l, n - 1, e), n - 1, e)
  }

  ghost predicate Recovers(z: Frozen, l: Live, n: nat, e: Env)
    requires n < FORWARD_SIZE
  {
    var op := ForwardProgramOp(n);
    var seen := ObserveForward(z, l, op, e);
    && !seen.SeesAmbiguous?
    && (seen.SeesOld? ==>
          && (ApplyForward(z, l, op, e).returned <==> (n == 1 ==> z.network.members == l.world.foreign))
          && ObserveForward(z, Recover(z, l, n, e), op, e).SeesDesired?)
    && Recovering(z, Recover(z, l, n, e), n + 1)
  }

  lemma RecoverStep(z: Frozen, l: Live, n: nat, e: Env)
    requires WellFrozen(z) && n < 15 && Recovering(z, l, n)
    ensures Recovers(z, l, n, e)
  {
    if n < 3 { RecoverContainer(z, l, n, e); }
    else if n < 9 { RecoverFile(z, l, n, e); }
    else if n == 9 { RecoverLoaded(z, l, e); }
    else { RecoverUnit(z, l, n, e); }
  }

  lemma RecoverContainer(z: Frozen, l: Live, n: nat, e: Env)
    requires WellFrozen(z) && n < 3 && Recovering(z, l, n)
    ensures Recovers(z, l, n, e)
  {
  }

  lemma RecoverFile(z: Frozen, l: Live, n: nat, e: Env)
    requires WellFrozen(z) && 3 <= n < 9 && Recovering(z, l, n)
    ensures Recovers(z, l, n, e)
  {
    var f := ForwardProgramOp(n).file;
    var after := Recover(z, l, n, e);
    assert 3 + FileIndex(f) == n;
    assert after.world.files.Get(f) == z.files.Get(f);
    forall g: FileId | 3 + FileIndex(g) < n + 1 ensures after.world.files.Get(g) == z.files.Get(g) {
      assert g != f ==> FileIndex(g) != FileIndex(f) && after.world.files.Get(g) == l.world.files.Get(g);
    }
  }

  lemma RecoverLoaded(z: Frozen, l: Live, e: Env)
    requires WellFrozen(z) && Recovering(z, l, 9)
    ensures Recovers(z, l, 9, e)
  {
    assert forall f: FileId :: 3 + FileIndex(f) < 9 && l.world.files.Get(f) == z.files.Get(f);
  }

  lemma RecoverUnit(z: Frozen, l: Live, n: nat, e: Env)
    requires WellFrozen(z) && 10 <= n < 15 && Recovering(z, l, n)
    ensures Recovers(z, l, n, e)
  {
  }

  /** The first fifteen steps bring any such host back to the old state, without meeting an AMBIGUOUS,
      and leave loaded and on-disk configuration equal; the startup recovery that follows is then
      admitted exactly when the container's health is as frozen. */
  lemma {:induction false} RecoverFromAnywhere(z: Frozen, l: Live, n: nat, e: Env)
    requires WellFrozen(z) && Recovering(z, l, 0) && n <= 15
    ensures Recovering(z, RecoverAll(z, l, n, e), n)
    ensures n < 15 ==> !ObserveForward(z, RecoverAll(z, l, n, e), ForwardProgramOp(n), e).SeesAmbiguous?
    ensures n == 15 ==>
      var w := RecoverAll(z, l, n, e).world;
      && FilesOld(z, w) && UnitsOld(z, w) && !NeedReload(w) && w.canonical.Some?
      && (ObserveForward(z, RecoverAll(z, l, n, e), StartupRecover, e).SeesAmbiguous? <==>
            w.canonical.value.health != z.container.health)
  {
    hide ForwardProgramOp, Recover, ObserveForward;
    if n > 0 {
      RecoverFromAnywhere(z, l, n - 1, e);
      RecoverStep(z, RecoverAll(z, l, n - 1, e), n - 1, e);
    }
    if n < 15 {
      RecoverStep(z, RecoverAll(z, l, n, e), n, e);
    } else {
      RecoveredIsOld(z, RecoverAll(z, l, n, e), e);
    }
  }

  lemma RecoveredIsOld(z: Frozen, l: Live, e: Env)
    requires WellFrozen(z) && Recovering(z, l, 15)
    ensures FilesOld(z, l.world) && UnitsOld(z, l.world) && !NeedReload(l.world) && l.world.canonical.Some?
    ensures ObserveForward(z, l, StartupRecover, e).SeesAmbiguous? <==>
            l.world.canonical.value.health != z.container.health
  {
    assert forall f: FileId :: 3 + FileIndex(f) < 15 && l.world.files.Get(f) == z.files.Get(f);
  }

  /** The environment lets the last steps through: the old container comes up with its frozen health,
      readiness is there and the startup recovery succeeds. */
  predicate Helps(z: Frozen, e: Env) {
    e.health == z.container.health && e.ready && e.recovers
  }

  lemma RecoveredHealth(z: Frozen, l: Live, e: Env)
    requires WellFrozen(z) && Recovering(z, l, 14) && Helps(z, e)
    ensures FullOld(z, Recover(z, l, 14, e).world) && !NeedReload(Recover(z, l, 14, e).world)
  {
    RecoverUnit(z, l, 14, e);
    RecoveredIsOld(z, Recover(z, l, 14, e), e);
  }

  lemma RecoveredMidway(z: Frozen, l: Live)
    requires WellFrozen(z) && Recovering(z, l, 15)
    ensures Midway(z, l, NOTHING)
  {
    assert forall f: FileId :: 3 + FileIndex(f) < 15 && l.world.files.Get(f) == z.files.Get(f);
  }

  /** Fully old, and recovered once the sixteenth step is done. */
  ghost predicate Back(z: Frozen, l: Live, n: nat) {
    Midway(z, l, NOTHING) && FullOld(z, l.world) && !NeedReload(l.world) && (n >= 16 ==> l.recovered)
  }

  lemma BackStep(z: Frozen, l: Live, n: nat, e: Env)
    requires WellFrozen(z) && 15 <= n < FORWARD_SIZE && Back(z, l, n) && Helps(z, e)
    ensures !ObserveForward(z, l, ForwardProgramOp(n), e).SeesAmbiguous?
    ensures n >= 16 ==> ObserveForward(z, l, ForwardProgramOp(n), e).SeesDesired?
    ensures Back(z, Recover(z, l, n, e), n + 1)
  {
    ForwardEnds(n);
    ForwardEnds(n + 1);
    ForwardOldStep(z, l, n, e);
  }

  /** All twenty-two steps, from any such host, meet no AMBIGUOUS and end fully old, with loaded and
      on-disk configuration equal and the startup recovery done; the closing observations all answer
      DESIRED. */
  lemma {:induction false} RecoverToTheEnd(z: Frozen, l: Live, n: nat, e: Env)
    requires WellFrozen(z) && Recovering(z, l, 0) && Helps(z, e) && n <= FORWARD_SIZE
    ensures n < FORWARD_SIZE ==> !ObserveForward(z, RecoverAll(z, l, n, e), ForwardProgramOp(n), e).SeesAmbiguous?
    ensures 16 <= n < FORWARD_SIZE ==> ObserveForward(z, RecoverAll(z, l, n, e), ForwardProgramOp(n), e).SeesDesired?
    ensures n >= 15 ==> Back(z, RecoverAll(z, l, n, e), n)
  {
    hide WellFrozen, ForwardProgramOp, Recover, ObserveForward, Midway, Recovering, FullOld, NeedReload;
    if n < 15 {
      RecoverFromAnywhere(z, l, n, e);
    } else {
      if n == 15 {
        RecoverFromAnywhere(z, l, 14, e);
        RecoverFromAnywhere(z, l, 15, e);
        RecoveredHealth(z, RecoverAll(z, l, 14, e), e);
        RecoveredMidway(z, RecoverAll(z, l, 15, e));
      } else {
        RecoverToTheEnd(z, l, n - 1, e);
        BackStep(z, RecoverAll(z, l, n - 1, e), n - 1, e);
      }
      if n < FORWARD_SIZE { BackStep(z, RecoverAll(z, l, n, e), n, e); }
    }
  }
}
