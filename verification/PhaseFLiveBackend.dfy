/** `Generation13LiveBackend` as the object it is: methods that update the host and the two mutable
    fields.  Each is proved to compute the function of PhaseFBackend that the drivers' theorems are
    about, and to bring a part-way host where its caller needs it. */
module PhaseFLiveBackend {
  import opened PhaseFWorld
  import opened PhaseFBackend
  import opened PhaseFProgram
  import opened PhaseFForwardOld
  import opened PhaseFContainers

  // ----- What a call achieves on a part-way host -----

  /** Applied where its guard holds and it is seen as OLD, an operation ends in effect and seen as
      DESIRED; a blocked one raises and changes nothing. */
  ghost predicate Advanced(z: Frozen, l: Live, op: Op, e: Env, l': Live, returned: bool) {
    forall s: Done |
      && Midway(z, l, s) && Enabled(s, op) && Observe(z, l, op).SeesOld? && Refresh(z, l, op) == l
      && (op.StartContainer? ==> e.health.Healthy?) ::
      if Blocked(z, op) then !returned && l' == l
      else returned && Observe(z, l', op).SeesDesired? && Midway(z, Refresh(z, l', op), With(s, op))
  }

  lemma ApplyAdvances(z: Frozen, l: Live, op: Op, e: Env)
    requires WellFrozen(z)
    ensures Advanced(z, l, op, e, Apply(z, l, op, e).live, Apply(z, l, op, e).returned)
  {
    hide WellFrozen, Midway, Enabled, Observe, Refresh, Apply, With, Blocked;
    forall s: Done |
      && Midway(z, l, s) && Enabled(s, op) && Observe(z, l, op).SeesOld? && Refresh(z, l, op) == l
      && (op.StartContainer? ==> e.health.Healthy?)
      ensures Advances(z, l, s, op, e)
    {
      ForwardStep(z, l, s, op, e);
    }
  }

  /** The observer of compensations tells a host where `op` may be taken back from one where it has
      been, and is never in doubt. */
  ghost predicate Tells(z: Frozen, l: Live, op: Op, seen: Observation) {
    forall s: Done | Undoable(s, op) ::
      && (Midway(z, l, s) ==> !seen.SeesAmbiguous? && (seen.SeesOld? ==> Midway(z, l, Without(s, op))))
      && (Midway(z, l, Without(s, op)) ==> seen.SeesOld? || (seen.SeesDesired? && op.Reload? && !z.upToDate))
  }

  lemma ObservationTells(z: Frozen, l: Live, op: Op)
    requires WellFrozen(z)
    ensures Tells(z, l, op, ObserveCompensation(z, l, op))
  {
    hide WellFrozen, Midway, Undoable, ObserveCompensation, Compensate, Without;
    var e := Env(Healthy, 0, true, true);
    forall s: Done | Undoable(s, op) && Midway(z, l, s) ensures Retreats(z, l, s, op, e) {
      CompensationStep(z, l, s, op, e);
    }
    forall s: Done | Undoable(s, op) && Midway(z, l, Without(s, op))
      ensures ObserveCompensation(z, l, op).SeesOld?
              || (ObserveCompensation(z, l, op).SeesDesired? && op.Reload? && !z.upToDate)
    {
      AlreadyCompensated(z, l, s, op, e);
    }
  }

  /** Taken back where it may be and is seen as DESIRED, an operation is no longer in effect, and seen
      as OLD. */
  ghost predicate TakenBack(z: Frozen, l: Live, op: Op, l': Live, returned: bool) {
    forall s: Done | Midway(z, l, s) && Undoable(s, op) && ObserveCompensation(z, l, op).SeesDesired? ::
      returned && ObserveCompensation(z, l', op).SeesOld? && Midway(z, l', Without(s, op))
  }

  lemma CompensateTakesBack(z: Frozen, l: Live, op: Op, e: Env)
    requires WellFrozen(z)
    ensures TakenBack(z, l, op, Compensate(z, l, op, e).live, Compensate(z, l, op, e).returned)
  {
    hide WellFrozen, Midway, Undoable, ObserveCompensation, Compensate, Without;
    forall s: Done | Midway(z, l, s) && Undoable(s, op) ensures Retreats(z, l, s, op, e) {
      CompensationStep(z, l, s, op, e);
    }
  }

  /** On the path forward to old the observer is in doubt exactly while the step has to wait, and sees as
      DESIRED only what is in effect. */
  ghost predicate TellsForward(z: Frozen, l: Live, op: ForwardOp, e: Env, seen: Observation) {
    forall n: nat | n < FORWARD_SIZE && op == ForwardProgramOp(n) && Midway(z, l, ForwardDone(n)) ::
      && (seen.SeesAmbiguous? <==> Waits(z, l, op, e))
      && (seen.SeesDesired? ==> Midway(z, l, ForwardDone(n + 1)))
  }

  /** And a step that is seen as OLD takes effect. */
  ghost predicate MovedForward(z: Frozen, l: Live, op: ForwardOp, e: Env, l': Live, returned: bool) {
    forall n: nat |
      && n < FORWARD_SIZE && op == ForwardProgramOp(n) && Midway(z, l, ForwardDone(n))
      && ObserveForward(z, l, op, e).SeesOld? ::
      && Midway(z, l', ForwardDone(n + 1))
      && (returned <==> op.StartupRecover? ==> e.recovers)
      && (returned ==> ObserveForward(z, l', op, e).SeesDesired?)
  }

  lemma ForwardMoves(z: Frozen, l: Live, op: ForwardOp, e: Env)
    requires WellFrozen(z)
    ensures TellsForward(z, l, op, e, ObserveForward(z, l, op, e))
    ensures MovedForward(z, l, op, e, ApplyForward(z, l, op, e).live, ApplyForward(z, l, op, e).returned)
  {
    hide WellFrozen, Midway, ForwardDone, ObserveForward, ApplyForward, Waits, ForwardProgramOp;
    forall n: nat | n < FORWARD_SIZE && op == ForwardProgramOp(n) && Midway(z, l, ForwardDone(n))
      ensures Restores(z, l, n, e)
    {
      ForwardOldStep(z, l, n, e);
    }
  }

  // ----- The class -----

  class Host {
    var world: World

    constructor (world: World)
      ensures this.world == world
    {
      this.world := world;
    }
  }

  class LiveBackend {
    const frozen: Frozen
    const host: Host
    var targetObservation: Option<Container>
    var startupRecovered: bool

    ghost function Snapshot(): Live
      reads this, host
    {
      Live(host.world, targetObservation, startupRecovered)
    }

    constructor Freeze(frozen: Frozen, host: Host, targetObservation: Option<Container>)
      ensures this.frozen == frozen && this.host == host && this.targetObservation == targetObservation && !startupRecovered
    {
      this.frozen := frozen;
      this.host := host;
      this.targetObservation := targetObservation;
      this.startupRecovered := false;
    }

    /** The constructor: where the old container is must be unambiguous, a container under the canonical
        name beside an archived one must be this plan's target, and the network must have the members
        that this allows.  Files and units are snapshotted from the host as it is now. */
    static method Build(host: Host, container: Container, network: Network, desired: PerFile<Bytes>, target: Target)
      returns (backend: LiveBackend?)
      ensures
        var z := Frozen(host.world.files, host.world.units, container, network, desired, target,
                        !NeedReload(host.world));
        && (backend != null <==> Constructible(z, host.world))
        && (backend != null ==>
              && fresh(backend) && backend.host == host && backend.frozen == z
              && backend.Snapshot().recovered == false
              && OldHeldOnce(z, host.world) && RemembersTarget(z, backend.Snapshot())
              && FilesOld(z, host.world) && UnitsOld(z, host.world))
    {
      var z := Frozen(
        host.world.files, host.world.units, container, network, desired, target, !NeedReload(host.world));
      var canonical, archived := host.world.canonical, host.world.archived;
      var canonicalIsOld := IsOld(z, canonical);
      var archivedIsOld := IsOld(z, archived);
      if canonicalIsOld == archivedIsOld {
        return null;
      }
      if canonicalIsOld {
        if archived.Some? {
          return null;
        }
      } else if canonical.Some? && !(canonical.value.plan == target.plan && canonical.value.config == target.config) {
        return null;
      }
      var targetObservation := if canonicalIsOld then None else canonical;
      if host.world.network != network.identity {
        return null;
      }
      var allowed := network.members;
      if targetObservation.Some? {
        allowed := allowed + {targetObservation.value.id};
      }
      if Members(host.world) != allowed {
        return null;
      }
      backend := new LiveBackend.Freeze(z, host, targetObservation);
    }

    method ObserveOperation(op: Op) returns (seen: Observation)
      modifies this
      ensures seen == Observe(frozen, old(Snapshot()), op)
      ensures Snapshot() == Refresh(frozen, old(Snapshot()), op)
    {
      match op
      case PublishFile(f) => seen := ObserveFile(frozen, host.world, f);
      case StopUnit(u) => seen := ObserveUnit(frozen, host.world, u, false);
      case StartUnit(u) => seen := ObserveUnit(frozen, host.world, u, true);
      case Reload => seen := if NeedReload(host.world) then SeesOld else SeesDesired;
      case _ => seen := ObserveContainer(op);
    }

    method ObserveContainer(op: Op) returns (seen: Observation)
      requires op.StopOld? || op.ArchiveOld? || op.CreateStopped? || op.SetTargetPolicy? || op.StartContainer?
      modifies this
      ensures seen == Observe(frozen, old(Snapshot()), op)
      ensures Snapshot() == Refresh(frozen, old(Snapshot()), op)
    {
      var canonical, archived := host.world.canonical, host.world.archived;
      var oldCanonical, oldArchived := IsOld(frozen, canonical), IsOld(frozen, archived);
      if op.StopOld? {
        if !oldCanonical || archived.Some? { return SeesAmbiguous; }
        if IsStopped(canonical.value) { return SeesDesired; }
        return if canonical.value.status.Running? then SeesOld else SeesAmbiguous;
      }
      if op.ArchiveOld? {
        if oldArchived && canonical.None? { return SeesDesired; }
        if oldCanonical && archived.None? && IsStopped(canonical.value) { return SeesOld; }
        return SeesAmbiguous;
      }
      if canonical.None? && oldArchived {
        return if op.CreateStopped? then SeesOld else SeesAmbiguous;
      }
      if !TargetMatches(frozen.target, canonical) || !oldArchived { return SeesAmbiguous; }
      targetObservation := canonical;
      var t := canonical.value;
      if op.CreateStopped? {
        return if IsStopped(t) || t.status.Running? then SeesDesired else SeesAmbiguous;
      }
      if op.SetTargetPolicy? {
        if t.policy == EXPECTED_POLICY { return SeesDesired; }
        return if t.policy == NO_POLICY then SeesOld else SeesAmbiguous;
      }
      if t.status.Running? && t.health.Healthy? { return SeesDesired; }
      return if IsStopped(t) then SeesOld else SeesAmbiguous;
    }

    /** Carries out one primitive on the host. */
    method Perform(o: Outcome) returns (returned: bool)
      modifies host
      ensures host.world == o.world && returned == o.returned
    {
      host.world := o.world;
      return o.returned;
    }

    /** The primitive's result becomes the stored target observation when it returns. */
    method PerformOnTarget(o: Outcome) returns (returned: bool)
      modifies this, host
      ensures Snapshot() == Stored(old(Snapshot()), o).live && returned == o.returned
    {
      returned := Perform(o);
      if returned {
        targetObservation := host.world.canonical;
      }
    }

    method ApplyOperation(op: Op, e: Env) returns (returned: bool)
      modifies this, host
      ensures Effect(Snapshot(), returned) == Apply(frozen, old(Snapshot()), op, e)
      ensures WellFrozen(frozen) ==> Advanced(frozen, old(Snapshot()), op, e, Snapshot(), returned)
    {
      hide Midway, WellFrozen, Advanced;
      if WellFrozen(frozen) { ApplyAdvances(frozen, Snapshot(), op, e); }
      match op
      case PublishFile(f) => returned := Perform(Publish(host.world, f, frozen.desired.Get(f), frozen.files.Get(f)));
      case StopUnit(u) => returned := Perform(Outcome(SetUnit(host.world, u, false), true));
      case StartUnit(u) => returned := Perform(Outcome(SetUnit(host.world, u, true), true));
      case Reload => returned := Perform(Outcome(DaemonReload(host.world), true));
      case StopOld => returned := Perform(StopContainer(host.world, frozen.container));
      case ArchiveOld => returned := Perform(RenameContainer(host.world, frozen.container, true));
      case CreateStopped => returned := PerformOnTarget(CreateTarget(host.world, frozen.target, frozen.network, e.id));
      case SetTargetPolicy =>
        if targetObservation.None? { return false; }
        returned := PerformOnTarget(SetPolicy(host.world, targetObservation.value));
      case StartContainer =>
        if targetObservation.None? { return false; }
        returned := PerformOnTarget(StartTarget(host.world, targetObservation.value, e.health));
    }

    method ObserveCompensation(op: Op) returns (seen: Observation)
      ensures seen == PhaseFBackend.ObserveCompensation(frozen, Snapshot(), op)
      ensures WellFrozen(frozen) ==> Tells(frozen, Snapshot(), op, seen)
    {
      hide Midway, WellFrozen, Tells;
      if WellFrozen(frozen) { ObservationTells(frozen, Snapshot(), op); }
      var w := host.world;
      match op
      case PublishFile(f) =>
        if w.files.Get(f) == frozen.files.Get(f) { return SeesOld; }
        return if ObserveFile(frozen, w, f).SeesDesired? then SeesDesired else SeesAmbiguous;
      case Reload =>
        return if NeedReload(w) then SeesDesired else SeesOld;
      case StopUnit(u) =>
        if w.units.Get(u) == frozen.units.Get(u) { return SeesOld; }
        return if IsDesired(w.units.Get(u), false) then SeesDesired else SeesAmbiguous;
      case StartUnit(u) =>
        if w.units.Get(u).active.Inactive? { return SeesOld; }
        return if w.units.Get(u).active.Active? then SeesDesired else SeesAmbiguous;
      case StartContainer =>
        if !TargetMatches(frozen.target, w.canonical) { return SeesAmbiguous; }
        if IsStopped(w.canonical.value) { return SeesOld; }
        return if w.canonical.value.status.Running? then SeesDesired else SeesAmbiguous;
      case SetTargetPolicy =>
        if !TargetMatches(frozen.target, w.canonical) { return SeesAmbiguous; }
        return if w.canonical.value.policy == NO_POLICY then SeesOld else SeesDesired;
      case CreateStopped =>
        if w.canonical.None? && w.archived.Some? { return SeesOld; }
        return if TargetMatches(frozen.target, w.canonical) then SeesDesired else SeesAmbiguous;
      case ArchiveOld =>
        if IsOld(frozen, w.canonical) && w.archived.None? { return SeesOld; }
        return if IsOld(frozen, w.archived) && w.canonical.None? then SeesDesired else SeesAmbiguous;
      case StopOld =>
        if !IsOld(frozen, w.canonical) { return SeesAmbiguous; }
        if w.canonical.value.status == frozen.container.status { return SeesOld; }
        return if IsStopped(w.canonical.value) then SeesDesired else SeesAmbiguous;
    }

    /** Whether readiness is there is the environment's answer. */
    method ObserveForwardOld(op: ForwardOp, e: Env) returns (seen: Observation)
      ensures seen == ObserveForward(frozen, Snapshot(), op, e)
      ensures WellFrozen(frozen) ==> TellsForward(frozen, Snapshot(), op, e, seen)
    {
      hide Midway, WellFrozen, TellsForward, MovedForward;
      if WellFrozen(frozen) { ForwardMoves(frozen, Snapshot(), op, e); }
      var w := host.world;
      match op
      case RestoreOldFile(f) =>
        return if w.files.Get(f) == frozen.files.Get(f) then SeesDesired else SeesOld;
      case StopTarget =>
        if !TargetMatches(frozen.target, w.canonical) || IsStopped(w.canonical.value) { return SeesDesired; }
        return if w.canonical.value.status.Running? then SeesOld else SeesAmbiguous;
      case RemoveTarget =>
        if w.canonical.None? { return SeesDesired; }
        return if TargetMatches(frozen.target, w.canonical) then SeesOld else SeesAmbiguous;
      case RestoreName =>
        if IsOld(frozen, w.canonical) && w.archived.None? { return SeesDesired; }
        return if IsOld(frozen, w.archived) && w.canonical.None? then SeesOld else SeesAmbiguous;
      case ReloadOld =>
        return if NeedReload(w) then SeesOld else SeesDesired;
      case RestoreUnit(u) =>
        return if w.units.Get(u) == frozen.units.Get(u) then SeesDesired else SeesOld;
      case VerifyPolicy =>
        return if w.canonical.Some? && w.canonical.value.policy == frozen.container.policy then SeesDesired else SeesAmbiguous;
      case RestoreRunning =>
        return if w.canonical.Some? && w.canonical.value.status == frozen.container.status then SeesDesired else SeesOld;
      case StartupRecover =>
        var full := ObserveFullOld();
        if !full.SeesOld? { return SeesAmbiguous; }
        return if startupRecovered then SeesDesired else SeesOld;
      case ObserveReadiness(_) =>
        return if e.ready then SeesDesired else SeesAmbiguous;
      case ObserveIngress(_) =>
        if w.units.Get(RuntimeService) != frozen.units.Get(RuntimeService)
           || w.units.Get(RuntimeSocket) != frozen.units.Get(RuntimeSocket)
           || w.archived.Some?
           || !SameObject(frozen.container, w.canonical, false, false, true)
           || !NetworkIs(w, frozen.network) { return SeesAmbiguous; }
        return SeesDesired;
      case ObserveFullOld(_) =>
        var full := ObserveFullOld();
        return if full.SeesOld? then SeesDesired else SeesAmbiguous;
    }

    method CompensateOperation(op: Op, e: Env) returns (returned: bool)
      modifies this, host
      ensures Effect(Snapshot(), returned) == Compensate(frozen, old(Snapshot()), op, e)
      ensures WellFrozen(frozen) ==> TakenBack(frozen, old(Snapshot()), op, Snapshot(), returned)
    {
      hide Midway, WellFrozen, TakenBack;
      if WellFrozen(frozen) { CompensateTakesBack(frozen, Snapshot(), op, e); }
      match op
      case PublishFile(f) => returned := Perform(RestoreFile(host.world, f, frozen.files.Get(f)));
      case Reload => returned := Perform(Outcome(DaemonReload(host.world), true));
      case StartUnit(u) => returned := Perform(Outcome(SetUnit(host.world, u, false), true));
      case StopUnit(u) => returned := Perform(RestoreUnitPrestate(frozen, host.world, u));
      case StartContainer =>
        if targetObservation.None? { return false; }
        returned := PerformOnTarget(StopContainer(host.world, targetObservation.value));
      case SetTargetPolicy => returned := Perform(ClearPolicy(host.world, frozen.target));
      case CreateStopped =>
        if !TargetMatches(frozen.target, host.world.canonical) { return false; }
        returned := Perform(RemoveContainer(host.world, host.world.canonical.value, frozen.network));
        if returned {
          targetObservation := None;
        }
      case ArchiveOld => returned := Perform(RenameContainer(host.world, frozen.container, false));
      case StopOld => returned := Perform(RestoreOldRunning(host.world, frozen.container, e.health));
    }

    method ApplyForwardOld(op: ForwardOp, e: Env) returns (returned: bool)
      modifies this, host
      ensures Effect(Snapshot(), returned) == ApplyForward(frozen, old(Snapshot()), op, e)
      ensures WellFrozen(frozen) ==> MovedForward(frozen, old(Snapshot()), op, e, Snapshot(), returned)
    {
      hide Midway, WellFrozen, TellsForward, MovedForward;
      if WellFrozen(frozen) { ForwardMoves(frozen, Snapshot(), op, e); }
      match op
      case RestoreOldFile(f) => returned := Perform(RestoreFile(host.world, f, frozen.files.Get(f)));
      case StopTarget =>
        if !TargetMatches(frozen.target, host.world.canonical) { return false; }
        returned := PerformOnTarget(StopContainer(host.world, host.world.canonical.value));
      case RemoveTarget =>
        if !TargetMatches(frozen.target, host.world.canonical) { return false; }
        returned := Perform(RemoveContainer(host.world, host.world.canonical.value, frozen.network));
      case RestoreName => returned := Perform(RenameContainer(host.world, frozen.container, false));
      case ReloadOld => returned := Perform(Outcome(DaemonReload(host.world), true));
      case RestoreUnit(u) => returned := Perform(RestoreUnitPrestate(frozen, host.world, u));
      case RestoreRunning => returned := Perform(RestoreOldRunning(host.world, frozen.container, e.health));
      case StartupRecover =>
        if e.recovers {
          startupRecovered := true;
        }
        returned := e.recovers;
      case _ => returned := false;
    }

    /** `observe_full_old`: files, then units, then the container, then the network. */
    method ObserveFullOld() returns (seen: Observation)
      ensures seen == if FullOld(frozen, host.world) then SeesOld else SeesAmbiguous
    {
      var w := host.world;
      if w.files != frozen.files {
        ghost var f :| w.files.Get(f) != frozen.files.Get(f);
        return SeesAmbiguous;
      }
      if w.units != frozen.units {
        ghost var u :| w.units.Get(u) != frozen.units.Get(u);
        return SeesAmbiguous;
      }
      if w.archived.Some? || !SameObject(frozen.container, w.canonical, false, false, true) { return SeesAmbiguous; }
      if !NetworkIs(w, frozen.network) { return SeesAmbiguous; }
      return SeesOld;
    }
  }
}
