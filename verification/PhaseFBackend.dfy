/** `Generation13LiveBackend`: what it observes, applies, compensates and restores, as functions of
    the snapshots it froze when it was built and of the host.  `LiveBackend` in PhaseFLiveBackend.dfy
    is the class whose methods are proved to compute these. */
module PhaseFBackend {
  import opened PhaseFWorld

  datatype Observation = SeesOld | SeesDesired | SeesAmbiguous

  /** The eighteen forward operations O01..O18. */
  datatype Op =
    | StopUnit(unit: UnitId)
    | StopOld
    | ArchiveOld
    | PublishFile(file: FileId)
    | Reload
    | StartUnit(unit: UnitId)
    | CreateStopped
    | SetTargetPolicy
    | StartContainer

  /** The twenty-two forward-to-old steps F01..F22. */
  datatype ForwardOp =
    | StopTarget
    | RemoveTarget
    | RestoreName
    | RestoreOldFile(file: FileId)
    | ReloadOld
    | RestoreUnit(unit: UnitId)
    | VerifyPolicy
    | RestoreRunning
    | StartupRecover
    | ObserveReadiness(round: nat)
    | ObserveIngress(round: nat)
    | ObserveFullOld(round: nat)

  /** What the constructor freezes.  `upToDate` only notes whether systemd had loaded at that moment what
      was on disk; nothing looks at it but the statements about what is loaded in the end. */
  datatype Frozen = Frozen(
    files: PerFile<FileState>, units: PerUnit<UnitState>, container: Container, network: Network,
    desired: PerFile<Bytes>, target: Target, upToDate: bool)

  /** The host together with the backend's two mutable fields. */
  datatype Live = Live(world: World, observed: Option<Container>, recovered: bool)

  /** What the outside decides during one call. */
  datatype Env = Env(health: Health, id: nat, ready: bool, recovers: bool)

  datatype Effect = Effect(live: Live, returned: bool)

  function Lift(l: Live, o: Outcome): Effect {
    Effect(l.(world := o.world), o.returned)
  }

  // ----- Observation -----

  predicate IsDesired(current: UnitState, active: bool) {
    (if active then current.active.Active? else current.active.Inactive?) && !current.job
  }

  predicate IsOld(z: Frozen, observed: Option<Container>) {
    SameObject(z.container, observed, true, false, true)
  }

  /** The constructor accepts this host: the old container is under exactly one of the two names, what is
      under the canonical name beside an archived one is this plan's target, and the network has the
      expected members and, if there is a target, that target. */
  predicate Constructible(z: Frozen, w: World) {
    && IsOld(z, w.canonical) != IsOld(z, w.archived)
    && (if IsOld(z, w.canonical) then w.archived.None?
        else w.canonical.None? || (w.canonical.value.plan == z.target.plan && w.canonical.value.config == z.target.config))
    && w.network == z.network.identity
    && Members(w) == z.network.members
                       + (if !IsOld(z, w.canonical) && w.canonical.Some? then {w.canonical.value.id} else {})
  }

  function ObserveFile(z: Frozen, w: World, f: FileId): Observation {
    if f in w.temps then SeesAmbiguous
    else if HasPayload(w.files.Get(f), z.desired.Get(f)) then SeesDesired
    else if w.files.Get(f) == z.files.Get(f) then SeesOld
    else SeesAmbiguous
  }

  function ObserveUnit(z: Frozen, w: World, u: UnitId, active: bool): Observation {
    if IsDesired(w.units.Get(u), active) then SeesDesired
    else if w.units.Get(u) == z.units.Get(u) then SeesOld
    else SeesAmbiguous
  }

  function Observe(z: Frozen, l: Live, op: Op): Observation {
    var w := l.world;
    match op
    case PublishFile(f) => ObserveFile(z, w, f)
    case StopUnit(u) => ObserveUnit(z, w, u, false)
    case StartUnit(u) => ObserveUnit(z, w, u, true)
    case Reload => if NeedReload(w) then SeesOld else SeesDesired
    case StopOld =>
      if !IsOld(z, w.canonical) || w.archived.Some? then SeesAmbiguous
      else if IsStopped(w.canonical.value) then SeesDesired
      else if w.canonical.value.status.Running? then SeesOld else SeesAmbiguous
    case ArchiveOld =>
      if IsOld(z, w.archived) && w.canonical.None? then SeesDesired
      else if IsOld(z, w.canonical) && w.archived.None? && IsStopped(w.canonical.value) then SeesOld
      else SeesAmbiguous
    case CreateStopped =>
      if w.canonical.None? && IsOld(z, w.archived) then SeesOld
      else if !TargetMatches(z.target, w.canonical) || !IsOld(z, w.archived) then SeesAmbiguous
      else if IsStopped(w.canonical.value) || w.canonical.value.status.Running? then SeesDesired else SeesAmbiguous
    case SetTargetPolicy =>
      if !TargetMatches(z.target, w.canonical) || !IsOld(z, w.archived) then SeesAmbiguous
      else if w.canonical.value.policy == EXPECTED_POLICY then SeesDesired
      else if w.canonical.value.policy == NO_POLICY then SeesOld else SeesAmbiguous
    case StartContainer =>
      if !TargetMatches(z.target, w.canonical) || !IsOld(z, w.archived) then SeesAmbiguous
      else if w.canonical.value.status.Running? && w.canonical.value.health.Healthy? then SeesDesired
      else if IsStopped(w.canonical.value) then SeesOld else SeesAmbiguous
  }

  /** `observe_operation` also refreshes the stored target observation. */
  function Refresh(z: Frozen, l: Live, op: Op): Live {
    if (op.CreateStopped? || op.SetTargetPolicy? || op.StartContainer?)
       && TargetMatches(z.target, l.world.canonical) && IsOld(z, l.world.archived)
    then l.(observed := l.world.canonical)
    else l
  }

  // ----- Application -----

  function Apply(z: Frozen, l: Live, op: Op, e: Env): Effect {
    var w := l.world;
    match op
    case PublishFile(f) => Lift(l, Publish(w, f, z.desired.Get(f), z.files.Get(f)))
    case StopUnit(u) => Effect(l.(world := SetUnit(w, u, false)), true)
    case StartUnit(u) => Effect(l.(world := SetUnit(w, u, true)), true)
    case Reload => Effect(l.(world := DaemonReload(w)), true)
    case StopOld => Lift(l, StopContainer(w, z.container))
    case ArchiveOld => Lift(l, RenameContainer(w, z.container, true))
    case CreateStopped =>
      var o := CreateTarget(w, z.target, z.network, e.id);
      Effect(Live(o.world, if o.returned then o.world.canonical else l.observed, l.recovered), o.returned)
    case SetTargetPolicy =>
      if l.observed.None? then Effect(l, false) else Stored(l, SetPolicy(w, l.observed.value))
    case StartContainer =>
      if l.observed.None? then Effect(l, false) else Stored(l, StartTarget(w, l.observed.value, e.health))
  }

  /** The primitive's result becomes the stored target observation when the call returns. */
  function Stored(l: Live, o: Outcome): Effect {
    Effect(Live(o.world, if o.returned then o.world.canonical else l.observed, l.recovered), o.returned)
  }

  // ----- Compensation -----

  function ObserveCompensation(z: Frozen, l: Live, op: Op): Observation {
    var w := l.world;
    match op
    case PublishFile(f) =>
      if w.files.Get(f) == z.files.Get(f) then SeesOld
      else if ObserveFile(z, w, f).SeesDesired? then SeesDesired else SeesAmbiguous
    case Reload => if NeedReload(w) then SeesDesired else SeesOld
    case StopUnit(u) =>
      if w.units.Get(u) == z.units.Get(u) then SeesOld
      else if IsDesired(w.units.Get(u), false) then SeesDesired else SeesAmbiguous
    case StartUnit(u) =>
      if w.units.Get(u).active.Inactive? then SeesOld
      else if w.units.Get(u).active.Active? then SeesDesired else SeesAmbiguous
    case StartContainer =>
      if !TargetMatches(z.target, w.canonical) then SeesAmbiguous
      else if IsStopped(w.canonical.value) then SeesOld
      else if w.canonical.value.status.Running? then SeesDesired else SeesAmbiguous
    case SetTargetPolicy =>
      if !TargetMatches(z.target, w.canonical) then SeesAmbiguous
      else if w.canonical.value.policy == NO_POLICY then SeesOld else SeesDesired
    case CreateStopped =>
      if w.canonical.None? && w.archived.Some? then SeesOld
      else if TargetMatches(z.target, w.canonical) then SeesDesired else SeesAmbiguous
    case ArchiveOld =>
      if IsOld(z, w.canonical) && w.archived.None? then SeesOld
      else if IsOld(z, w.archived) && w.canonical.None? then SeesDesired else SeesAmbiguous
    case StopOld =>
      if !IsOld(z, w.canonical) then SeesAmbiguous
      else if w.canonical.value.status == z.container.status then SeesOld
      else if IsStopped(w.canonical.value) then SeesDesired else SeesAmbiguous
  }

  function RestoreUnitPrestate(z: Frozen, w: World, u: UnitId): Outcome {
    var after := SetUnit(w, u, z.units.Get(u).active.Active?);
    Outcome(after, after.units.Get(u) == z.units.Get(u))
  }

  function Compensate(z: Frozen, l: Live, op: Op, e: Env): Effect {
    var w := l.world;
    match op
    case PublishFile(f) => Lift(l, PhaseFWorld.RestoreFile(w, f, z.files.Get(f)))
    case Reload => Effect(l.(world := DaemonReload(w)), true)
    case StartUnit(u) => Effect(l.(world := SetUnit(w, u, false)), true)
    case StopUnit(u) => Lift(l, RestoreUnitPrestate(z, w, u))
    case StartContainer =>
      if l.observed.None? then Effect(l, false) else Stored(l, StopContainer(w, l.observed.value))
    case SetTargetPolicy => Lift(l, ClearPolicy(w, z.target))
    case CreateStopped =>
      if !TargetMatches(z.target, w.canonical) then Effect(l, false)
      else
        var o := RemoveContainer(w, w.canonical.value, z.network);
        Effect(Live(o.world, if o.returned then None else l.observed, l.recovered), o.returned)
    case ArchiveOld => Lift(l, RenameContainer(w, z.container, false))
    case StopOld => Lift(l, RestoreOldRunning(w, z.container, e.health))
  }

  // ----- The terminal observation -----

  predicate FilesOld(z: Frozen, w: World) {
    forall f: FileId :: w.files.Get(f) == z.files.Get(f)
  }

  predicate UnitsOld(z: Frozen, w: World) {
    forall u: UnitId :: w.units.Get(u) == z.units.Get(u)
  }

  /** `observe_full_old` answers OLD. */
  predicate FullOld(z: Frozen, w: World) {
    && FilesOld(z, w)
    && UnitsOld(z, w)
    && w.archived.None?
    && SameObject(z.container, w.canonical, false, false, true)
    && NetworkIs(w, z.network)
  }

  // ----- Forward to old -----

  predicate IngressOld(z: Frozen, w: World) {
    && w.units.Get(RuntimeService) == z.units.Get(RuntimeService)
    && w.units.Get(RuntimeSocket) == z.units.Get(RuntimeSocket)
    && w.archived.None?
    && SameObject(z.container, w.canonical, false, false, true)
    && NetworkIs(w, z.network)
  }

  function ObserveForward(z: Frozen, l: Live, op: ForwardOp, e: Env): Observation {
    var w := l.world;
    match op
    case RestoreOldFile(f) => if w.files.Get(f) == z.files.Get(f) then SeesDesired else SeesOld
    case StopTarget =>
      if !TargetMatches(z.target, w.canonical) then SeesDesired
      else if IsStopped(w.canonical.value) then SeesDesired
      else if w.canonical.value.status.Running? then SeesOld else SeesAmbiguous
    case RemoveTarget =>
      if w.canonical.None? then SeesDesired
      else if TargetMatches(z.target, w.canonical) then SeesOld else SeesAmbiguous
    case RestoreName =>
      if IsOld(z, w.canonical) && w.archived.None? then SeesDesired
      else if IsOld(z, w.archived) && w.canonical.None? then SeesOld else SeesAmbiguous
    case ReloadOld => if NeedReload(w) then SeesOld else SeesDesired
    case RestoreUnit(u) => if w.units.Get(u) == z.units.Get(u) then SeesDesired else SeesOld
    case VerifyPolicy =>
      if w.canonical.Some? && w.canonical.value.policy == z.container.policy then SeesDesired else SeesAmbiguous
    case RestoreRunning =>
      if w.canonical.Some? && w.canonical.value.status == z.container.status then SeesDesired else SeesOld
    case StartupRecover =>
      if !FullOld(z, w) then SeesAmbiguous else if l.recovered then SeesDesired else SeesOld
    case ObserveReadiness(_) => if e.ready then SeesDesired else SeesAmbiguous
    case ObserveIngress(_) => if IngressOld(z, w) then SeesDesired else SeesAmbiguous
    case ObserveFullOld(_) => if FullOld(z, w) then SeesDesired else SeesAmbiguous
  }

  function ApplyForward(z: Frozen, l: Live, op: ForwardOp, e: Env): Effect {
    var w := l.world;
    match op
    case RestoreOldFile(f) => Lift(l, PhaseFWorld.RestoreFile(w, f, z.files.Get(f)))
    case StopTarget =>
      if !TargetMatches(z.target, w.canonical) then Effect(l, false)
      else Stored(l, StopContainer(w, w.canonical.value))
    case RemoveTarget =>
      if !TargetMatches(z.target, w.canonical) then Effect(l, false)
      else Lift(l, RemoveContainer(w, w.canonical.value, z.network))
    case RestoreName => Lift(l, RenameContainer(w, z.container, false))
    case ReloadOld => Effect(l.(world := DaemonReload(w)), true)
    case RestoreUnit(u) => Lift(l, RestoreUnitPrestate(z, w, u))
    case RestoreRunning => Lift(l, RestoreOldRunning(w, z.container, e.health))
    case StartupRecover => Effect(l.(recovered := l.recovered || e.recovers), e.recovers)
    case VerifyPolicy => Effect(l, false)
    case ObserveReadiness(_) => Effect(l, false)
    case ObserveIngress(_) => Effect(l, false)
    case ObserveFullOld(_) => Effect(l, false)
  }
}
