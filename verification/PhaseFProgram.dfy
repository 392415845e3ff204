/** What the host looks like part-way through an activation or its rollback, and the fixed programs
    that take it there.

    `Midway(z, l, s)` describes the host when exactly the operations in `s` are in effect.  Adding an
    operation whose `Enabled` guard holds, or compensating one whose `Undoable` guard holds, moves the
    host to the neighbouring set; the guards are then shown to hold all along the three programs. */
module PhaseFProgram {
  import opened PhaseFWorld
  import opened PhaseFBackend

  const SIZE: nat := 18
  const FORWARD_SIZE: nat := 22

  /** O01..O18. */
  function ProgramOp(i: int): Op {
    match i
    case 0 => StopUnit(RuntimeService)
    case 1 => StopUnit(RuntimeSocket)
    case 2 => StopUnit(CoreService)
    case 3 => StopOld
    case 4 => ArchiveOld
    case 5 => PublishFile(ReleaseSet)
    case 6 => PublishFile(EpochSelector)
    case 7 => PublishFile(CoreBinding)
    case 8 => PublishFile(CoreSelector)
    case 9 => PublishFile(CoreGate)
    case 10 => PublishFile(RuntimeDropin)
    case 11 => Reload
    case 12 => StartUnit(CoreService)
    case 13 => StartUnit(RuntimeSocket)
    case 14 => StartUnit(RuntimeService)
    case 15 => CreateStopped
    case 16 => SetTargetPolicy
    case _ => StartContainer
  }

  /** The order of compensation.  Not the mirror image of the program: the reload comes after every
      file and the old container is restarted last. */
  function ReverseOp(i: int): Op {
    match i
    case 0 => StartContainer
    case 1 => SetTargetPolicy
    case 2 => CreateStopped
    case 3 => ArchiveOld
    case 4 => PublishFile(RuntimeDropin)
    case 5 => PublishFile(CoreGate)
    case 6 => PublishFile(CoreSelector)
    case 7 => PublishFile(CoreBinding)
    case 8 => PublishFile(EpochSelector)
    case 9 => PublishFile(ReleaseSet)
    case 10 => Reload
    case 11 => StartUnit(RuntimeService)
    case 12 => StartUnit(RuntimeSocket)
    case 13 => StartUnit(CoreService)
    case 14 => StopUnit(CoreService)
    case 15 => StopUnit(RuntimeSocket)
    case 16 => StopUnit(RuntimeService)
    case _ => StopOld
  }

  /** F01..F22. */
  function ForwardProgramOp(i: int): ForwardOp {
    match i
    case 0 => StopTarget
    case 1 => RemoveTarget
    case 2 => RestoreName
    case 3 => RestoreOldFile(ReleaseSet)
    case 4 => RestoreOldFile(EpochSelector)
    case 5 => RestoreOldFile(CoreBinding)
    case 6 => RestoreOldFile(CoreSelector)
    case 7 => RestoreOldFile(CoreGate)
    case 8 => RestoreOldFile(RuntimeDropin)
    case 9 => ReloadOld
    case 10 => RestoreUnit(CoreService)
    case 11 => RestoreUnit(RuntimeSocket)
    case 12 => RestoreUnit(RuntimeService)
    case 13 => VerifyPolicy
    case 14 => RestoreRunning
    case 15 => StartupRecover
    case 16 => ObserveReadiness(1)
    case 17 => ObserveReadiness(2)
    case 18 => ObserveIngress(1)
    case 19 => ObserveIngress(2)
    case 20 => ObserveFullOld(1)
    case _ => ObserveFullOld(2)
  }

  predicate IsForward(op: ForwardOp) {
    match op
    case ObserveReadiness(r) => r == 1 || r == 2
    case ObserveIngress(r) => r == 1 || r == 2
    case ObserveFullOld(r) => r == 1 || r == 2
    case _ => true
  }

  /** The first `k` operations, in order. */
  function First(k: nat): (ops: seq<Op>)
    ensures |ops| == k
  {
    if k == 0 then [] else First(k - 1) + [ProgramOp(k - 1)]
  }

  function FirstForward(n: nat): (ops: seq<ForwardOp>)
    ensures |ops| == n
  {
    if n == 0 then [] else FirstForward(n - 1) + [ForwardProgramOp(n - 1)]
  }

  // ----- Assumptions on what was frozen -----

  /** The frozen units are cleanly active or cleanly inactive, the frozen container is running or
      stopped, and the old container is not one this plan created. */
  ghost predicate WellFrozen(z: Frozen) {
    && (forall u: UnitId :: z.units.Get(u) == CleanActive(u) || z.units.Get(u) == CLEAN_INACTIVE)
    && (z.container.status.Running? || IsStopped(z.container))
    && z.container.plan != z.target.plan
  }

  // ----- Part-way states -----

  /** Which operations are in effect. */
  datatype Done = Done(
    stopped: PerUnit<bool>, started: PerUnit<bool>, published: PerFile<bool>, reloaded: bool,
    oldStopped: bool, oldArchived: bool, created: bool, policySet: bool, running: bool)

  const NOTHING := Done(AllUnits(false), AllUnits(false), AllFiles(false), false, false, false, false, false, false)

  predicate Has(s: Done, op: Op) {
    match op
    case StopUnit(u) => s.stopped.Get(u)
    case StartUnit(u) => s.started.Get(u)
    case PublishFile(f) => s.published.Get(f)
    case Reload => s.reloaded
    case StopOld => s.oldStopped
    case ArchiveOld => s.oldArchived
    case CreateStopped => s.created
    case SetTargetPolicy => s.policySet
    case StartContainer => s.running
  }

  function With(s: Done, op: Op): Done {
    match op
    case StopUnit(u) => s.(stopped := s.stopped.Set(u, true))
    case StartUnit(u) => s.(started := s.started.Set(u, true))
    case PublishFile(f) => s.(published := s.published.Set(f, true))
    case Reload => s.(reloaded := true)
    case StopOld => s.(oldStopped := true)
    case ArchiveOld => s.(oldArchived := true)
    case CreateStopped => s.(created := true)
    case SetTargetPolicy => s.(policySet := true)
    case StartContainer => s.(running := true)
  }

  function Without(s: Done, op: Op): Done {
    match op
    case StopUnit(u) => s.(stopped := s.stopped.Set(u, false))
    case StartUnit(u) => s.(started := s.started.Set(u, false))
    case PublishFile(f) => s.(published := s.published.Set(f, false))
    case Reload => s.(reloaded := false)
    case StopOld => s.(oldStopped := false)
    case ArchiveOld => s.(oldArchived := false)
    case CreateStopped => s.(created := false)
    case SetTargetPolicy => s.(policySet := false)
    case StartContainer => s.(running := false)
  }

  ghost predicate FilesAt(z: Frozen, w: World, s: Done) {
    forall f: FileId ::
      w.files.Get(f) == (if s.published.Get(f) then Published(z.files.Get(f), z.desired.Get(f)) else z.files.Get(f))
  }

  /** What systemd has loaded; nothing is known of it before the reload if it was not up to date at
      first. */
  ghost predicate LoadedAt(z: Frozen, w: World, s: Done) {
    forall f: FileId | IsUnitConfig(f) && (s.reloaded || z.upToDate) ::
      w.loaded.Get(f) == (if s.reloaded then Published(z.files.Get(f), z.desired.Get(f)) else z.files.Get(f))
  }

  ghost predicate UnitsAt(z: Frozen, w: World, s: Done) {
    forall u: UnitId ::
      w.units.Get(u) ==
        (if s.started.Get(u) then CleanActive(u) else if s.stopped.Get(u) then CLEAN_INACTIVE else z.units.Get(u))
  }

  /** The old container; its health may change only while it runs. */
  ghost predicate OldAt(z: Frozen, o: Option<Container>, stopped: bool) {
    && o.Some?
    && (!z.container.status.Running? ==> o.value.health == z.container.health)
    && o.value == z.container.(
      status := if stopped && z.container.status.Running? then Exited else z.container.status,
      health := o.value.health)
  }

  ghost predicate TargetAt(z: Frozen, l: Live, policy: bool, started: bool) {
    var t := l.world.canonical;
    && TargetMatches(z.target, t)
    && t.value.policy == (if policy then EXPECTED_POLICY else NO_POLICY)
    && (if started then t.value.status.Running? else IsStopped(t.value))
    && (started ==> l.observed.Some? && SameObject(l.observed.value, t, true, false, false))
  }

  ghost predicate ContainersAt(z: Frozen, l: Live, s: Done) {
    if s.oldArchived then
      && OldAt(z, l.world.archived, s.oldStopped)
      && (if s.created
          then TargetAt(z, l, s.policySet, s.running)
          else l.world.canonical.None?)
    else
      l.world.archived.None? && OldAt(z, l.world.canonical, s.oldStopped)
  }

  /** The expected members are the foreign ones and, if it was frozen running on the network, the old
      container; a target was created only where no members were expected. */
  ghost predicate NetworkAt(z: Frozen, w: World, s: Done) {
    && w.network == z.network.identity
    && z.network.members == w.foreign + Joined(Some(z.container))
    && (s.oldArchived && s.created ==> z.network.members == {})
  }

  ghost predicate Midway(z: Frozen, l: Live, s: Done) {
    && l.world.temps == {} && NetworkAt(z, l.world, s)
    && FilesAt(z, l.world, s) && LoadedAt(z, l.world, s)
    && UnitsAt(z, l.world, s) && ContainersAt(z, l, s)
  }

  /** What a step leaves alone stays as it was. */
  lemma Frame(z: Frozen, l: Live, s: Done, l': Live, s': Done)
    requires Midway(z, l, s)
    ensures l'.world.files == l.world.files && s'.published == s.published ==> FilesAt(z, l'.world, s')
    ensures l'.world.loaded == l.world.loaded && s'.reloaded == s.reloaded ==> LoadedAt(z, l'.world, s')
    ensures l'.world.units == l.world.units && s'.started == s.started && s'.stopped == s.stopped ==>
              UnitsAt(z, l'.world, s')
    ensures l'.world.canonical == l.world.canonical && l'.world.archived == l.world.archived
            && l'.observed == l.observed && s'.oldStopped == s.oldStopped && s'.oldArchived == s.oldArchived
            && s'.created == s.created && s'.policySet == s.policySet && s'.running == s.running ==>
              ContainersAt(z, l', s')
  {
  }

  /** Only the file at `f` is in question when `f` changes sides. */
  lemma FileChange(z: Frozen, w: World, s: Done, f: FileId, w': World, s': Done)
    requires FilesAt(z, w, s)
    requires forall g: FileId | g != f :: w'.files.Get(g) == w.files.Get(g) && (s'.published.Get(g) <==> s.published.Get(g))
    requires w'.files.Get(f) == (if s'.published.Get(f) then Published(z.files.Get(f), z.desired.Get(f)) else z.files.Get(f))
    ensures FilesAt(z, w', s')
  {
    forall g: FileId
      ensures w'.files.Get(g) == (if s'.published.Get(g) then Published(z.files.Get(g), z.desired.Get(g)) else z.files.Get(g))
    {
      assert w.files.Get(g) == (if s.published.Get(g) then Published(z.files.Get(g), z.desired.Get(g)) else z.files.Get(g));
    }
  }

  lemma PublishAt(z: Frozen, w: World, s: Done, f: FileId)
    requires FilesAt(z, w, s) && !s.published.Get(f) && w.temps == {}
    ensures !ObserveFile(z, w, f).SeesAmbiguous?
    ensures ObserveFile(z, w, f).SeesDesired? ==> FilesAt(z, w, With(s, PublishFile(f)))
    ensures
      var o := Publish(w, f, z.desired.Get(f), z.files.Get(f));
      o.returned && ObserveFile(z, o.world, f).SeesDesired? && FilesAt(z, o.world, With(s, PublishFile(f)))
  {
    var o := Publish(w, f, z.desired.Get(f), z.files.Get(f));
    assert w.files.Get(f) == z.files.Get(f);
    FileChange(z, w, s, f, o.world, With(s, PublishFile(f)));
    if HasPayload(w.files.Get(f), z.desired.Get(f)) {
      FileChange(z, w, s, f, w, With(s, PublishFile(f)));
    }
  }

  lemma RestoreAt(z: Frozen, w: World, s: Done, f: FileId)
    requires FilesAt(z, w, s) && s.published.Get(f) && w.temps == {}
    ensures ObserveFile(z, w, f).SeesDesired?
    ensures w.files.Get(f) == z.files.Get(f) ==> FilesAt(z, w, Without(s, PublishFile(f)))
    ensures
      var o := PhaseFWorld.RestoreFile(w, f, z.files.Get(f));
      o.returned && o.world.files.Get(f) == z.files.Get(f) && FilesAt(z, o.world, Without(s, PublishFile(f)))
  {
    var o := PhaseFWorld.RestoreFile(w, f, z.files.Get(f));
    assert w.files.Get(f) == Published(z.files.Get(f), z.desired.Get(f));
    FileChange(z, w, s, f, o.world, Without(s, PublishFile(f)));
    if w.files.Get(f) == z.files.Get(f) {
      FileChange(z, w, s, f, w, Without(s, PublishFile(f)));
    }
  }

  // ----- One operation forward -----

  /** What must already be in effect when `op` is applied. */
  ghost predicate Enabled(s: Done, op: Op) {
    && !Has(s, op)
    && match op
       case StopUnit(u) => !s.started.Get(u)
       case StartUnit(u) => s.stopped.Get(u)
       case PublishFile(_) => true
       case Reload => forall f: FileId :: s.published.Get(f)
       case StopOld => !s.oldArchived
       case ArchiveOld => s.oldStopped && !s.created
       case CreateStopped => s.oldArchived && !s.policySet && !s.running
       case SetTargetPolicy => s.oldArchived && s.created && !s.running
       case StartContainer => s.oldArchived && s.created
  }

  /** The start of a unit that was frozen active: the observer compares with the frozen tuple. */
  predicate StartBlocked(z: Frozen, op: Op) {
    op.StartUnit? && z.units.Get(op.unit).active.Active?
  }

  /** The creation of the target on a network that is expected to have members. */
  predicate CreateBlocked(z: Frozen, op: Op) {
    op.CreateStopped? && z.network.members != {}
  }

  predicate Blocked(z: Frozen, op: Op) {
    StartBlocked(z, op) || CreateBlocked(z, op)
  }

  /** Applying an enabled operation puts it in effect, and it is then seen as DESIRED.  The exceptions
      are the blocked ones: such a start is seen as AMBIGUOUS, such a creation raises and does nothing. */
  ghost predicate Advances(z: Frozen, l: Live, s: Done, op: Op, e: Env) {
    var seen := Observe(z, l, op);
    var now := Refresh(z, l, op);
    && (seen.SeesAmbiguous? <==> StartBlocked(z, op))
    && (seen.SeesDesired? ==> !Blocked(z, op) && Midway(z, now, With(s, op)))
    && (seen.SeesOld? ==>
          var r := Apply(z, now, op, e);
          if Blocked(z, op) then r == Effect(now, false)
          else
            && r.returned && Observe(z, r.live, op).SeesDesired?
            && Midway(z, Refresh(z, r.live, op), With(s, op)))
  }

  lemma ForwardStep(z: Frozen, l: Live, s: Done, op: Op, e: Env)
    requires WellFrozen(z) && Midway(z, l, s) && Enabled(s, op)
    requires op.StartContainer? ==> e.health.Healthy?
    ensures Advances(z, l, s, op, e)
  {
    match op
    case StopUnit(u) => ForwardStop(z, l, s, u, e);
    case StartUnit(u) => ForwardStart(z, l, s, u, e);
    case PublishFile(f) => ForwardFile(z, l, s, f, e);
    case Reload => ForwardReload(z, l, s, e);
    case StopOld => ForwardStopOld(z, l, s, e);
    case ArchiveOld => ForwardArchive(z, l, s, e);
    case CreateStopped => ForwardCreate(z, l, s, e);
    case SetTargetPolicy => ForwardPolicy(z, l, s, e);
    case StartContainer => ForwardContainer(z, l, s, e);
  }

  lemma ForwardStop(z: Frozen, l: Live, s: Done, u: UnitId, e: Env)
    requires WellFrozen(z) && Midway(z, l, s) && Enabled(s, StopUnit(u))
    ensures Advances(z, l, s, StopUnit(u), e)
  {
    var r := Apply(z, l, StopUnit(u), e).live;
    assert Refresh(z, l, StopUnit(u)) == l && Refresh(z, r, StopUnit(u)) == r;
    Frame(z, l, s, l, With(s, StopUnit(u)));
    Frame(z, l, s, r, With(s, StopUnit(u)));
    assert l.world.units.Get(u) == z.units.Get(u);
  }

  lemma ForwardStart(z: Frozen, l: Live, s: Done, u: UnitId, e: Env)
    requires WellFrozen(z) && Midway(z, l, s) && Enabled(s, StartUnit(u))
    ensures Advances(z, l, s, StartUnit(u), e)
  {
    var r := Apply(z, l, StartUnit(u), e).live;
    assert Refresh(z, l, StartUnit(u)) == l && Refresh(z, r, StartUnit(u)) == r;
    Frame(z, l, s, l, With(s, StartUnit(u)));
    Frame(z, l, s, r, With(s, StartUnit(u)));
    assert l.world.units.Get(u) == CLEAN_INACTIVE;
  }

  lemma ForwardFile(z: Frozen, l: Live, s: Done, f: FileId, e: Env)
    requires WellFrozen(z) && Midway(z, l, s) && Enabled(s, PublishFile(f))
    ensures Advances(z, l, s, PublishFile(f), e)
  {
    var r := Apply(z, l, PublishFile(f), e).live;
    assert Refresh(z, l, PublishFile(f)) == l && Refresh(z, r, PublishFile(f)) == r;
    Frame(z, l, s, l, With(s, PublishFile(f)));
    Frame(z, l, s, r, With(s, PublishFile(f)));
    PublishAt(z, l.world, s, f);
  }

  lemma ForwardReload(z: Frozen, l: Live, s: Done, e: Env)
    requires WellFrozen(z) && Midway(z, l, s) && Enabled(s, Reload)
    ensures Advances(z, l, s, Reload, e)
  {
    var r := Apply(z, l, Reload, e).live;
    assert Refresh(z, l, Reload) == l && Refresh(z, r, Reload) == r;
    Frame(z, l, s, l, With(s, Reload));
    Frame(z, l, s, r, With(s, Reload));
    assert forall f: FileId :: l.world.files.Get(f) == Published(z.files.Get(f), z.desired.Get(f));
  }

  lemma ForwardStopOld(z: Frozen, l: Live, s: Done, e: Env)
    requires WellFrozen(z) && Midway(z, l, s) && Enabled(s, StopOld)
    ensures Advances(z, l, s, StopOld, e)
  {
    var now := Refresh(z, l, StopOld);
    var r := Apply(z, now, StopOld, e).live;
    Frame(z, l, s, now, With(s, StopOld));
    Frame(z, l, s, Refresh(z, r, StopOld), With(s, StopOld));
  }

  lemma ForwardArchive(z: Frozen, l: Live, s: Done, e: Env)
    requires WellFrozen(z) && Midway(z, l, s) && Enabled(s, ArchiveOld)
    ensures Advances(z, l, s, ArchiveOld, e)
  {
    var now := Refresh(z, l, ArchiveOld);
    var r := Apply(z, now, ArchiveOld, e).live;
    Frame(z, l, s, now, With(s, ArchiveOld));
    Frame(z, l, s, Refresh(z, r, ArchiveOld), With(s, ArchiveOld));
  }

  lemma ForwardCreate(z: Frozen, l: Live, s: Done, e: Env)
    requires WellFrozen(z) && Midway(z, l, s) && Enabled(s, CreateStopped)
    ensures Advances(z, l, s, CreateStopped, e)
  {
    var now := Refresh(z, l, CreateStopped);
    var r := Apply(z, now, CreateStopped, e).live;
    Frame(z, l, s, now, With(s, CreateStopped));
    Frame(z, l, s, Refresh(z, r, CreateStopped), With(s, CreateStopped));
  }

  lemma ForwardPolicy(z: Frozen, l: Live, s: Done, e: Env)
    requires WellFrozen(z) && Midway(z, l, s) && Enabled(s, SetTargetPolicy)
    ensures Advances(z, l, s, SetTargetPolicy, e)
  {
    var now := Refresh(z, l, SetTargetPolicy);
    var r := Apply(z, now, SetTargetPolicy, e).live;
    Frame(z, l, s, now, With(s, SetTargetPolicy));
    Frame(z, l, s, Refresh(z, r, SetTargetPolicy), With(s, SetTargetPolicy));
  }

  lemma ForwardContainer(z: Frozen, l: Live, s: Done, e: Env)
    requires WellFrozen(z) && Midway(z, l, s) && Enabled(s, StartContainer)
    requires e.health.Healthy?
    ensures Advances(z, l, s, StartContainer, e)
  {
    var now := Refresh(z, l, StartContainer);
    var r := Apply(z, now, StartContainer, e).live;
    Frame(z, l, s, now, With(s, StartContainer));
    Frame(z, l, s, Refresh(z, r, StartContainer), With(s, StartContainer));
  }

  // ----- One compensation -----

  /** What may still be in effect when `op` is compensated. */
  ghost predicate Undoable(s: Done, op: Op) {
    && Has(s, op)
    && match op
       case StopUnit(u) => !s.started.Get(u)
       case StartUnit(u) => s.stopped.Get(u)
       case PublishFile(_) => true
       case Reload => forall f: FileId | IsUnitConfig(f) :: !s.published.Get(f)
       case StopOld => !s.oldArchived
       case ArchiveOld => s.oldStopped && !s.created
       case CreateStopped => s.oldArchived && !s.policySet && !s.running
       case SetTargetPolicy => s.oldArchived && s.created && !s.running
       case StartContainer => s.oldArchived && s.created
  }

  ghost predicate Retreats(z: Frozen, l: Live, s: Done, op: Op, e: Env) {
    var seen := ObserveCompensation(z, l, op);
    && !seen.SeesAmbiguous?
    && (seen.SeesOld? ==> Midway(z, l, Without(s, op)))
    && (seen.SeesDesired? ==>
          var r := Compensate(z, l, op, e);
          r.returned && ObserveCompensation(z, r.live, op).SeesOld? && Midway(z, r.live, Without(s, op)))
  }

  lemma CompensationStep(z: Frozen, l: Live, s: Done, op: Op, e: Env)
    requires WellFrozen(z) && Midway(z, l, s) && Undoable(s, op)
    ensures Retreats(z, l, s, op, e)
  {
    match op
    case StopUnit(u) => CompensateStop(z, l, s, u, e);
    case StartUnit(u) => CompensateStart(z, l, s, u, e);
    case PublishFile(f) => CompensateFile(z, l, s, f, e);
    case Reload => CompensateReload(z, l, s, e);
    case StopOld => CompensateStopOld(z, l, s, e);
    case ArchiveOld => CompensateArchive(z, l, s, e);
    case CreateStopped => CompensateCreate(z, l, s, e);
    case SetTargetPolicy => CompensatePolicy(z, l, s, e);
    case StartContainer => CompensateContainer(z, l, s, e);
  }

  lemma CompensateStop(z: Frozen, l: Live, s: Done, u: UnitId, e: Env)
    requires WellFrozen(z) && Midway(z, l, s) && Undoable(s, StopUnit(u))
    ensures Retreats(z, l, s, StopUnit(u), e)
  {
    var r := Compensate(z, l, StopUnit(u), e).live;
    Frame(z, l, s, l, Without(s, StopUnit(u)));
    Frame(z, l, s, r, Without(s, StopUnit(u)));
    assert l.world.units.Get(u) == CLEAN_INACTIVE;
  }

  lemma CompensateStart(z: Frozen, l: Live, s: Done, u: UnitId, e: Env)
    requires WellFrozen(z) && Midway(z, l, s) && Undoable(s, StartUnit(u))
    ensures Retreats(z, l, s, StartUnit(u), e)
  {
    var r := Compensate(z, l, StartUnit(u), e).live;
    Frame(z, l, s, l, Without(s, StartUnit(u)));
    Frame(z, l, s, r, Without(s, StartUnit(u)));
    assert l.world.units.Get(u) == CleanActive(u);
  }

  lemma CompensateFile(z: Frozen, l: Live, s: Done, f: FileId, e: Env)
    requires WellFrozen(z) && Midway(z, l, s) && Undoable(s, PublishFile(f))
    ensures Retreats(z, l, s, PublishFile(f), e)
  {
    var r := Compensate(z, l, PublishFile(f), e).live;
    Frame(z, l, s, l, Without(s, PublishFile(f)));
    Frame(z, l, s, r, Without(s, PublishFile(f)));
    RestoreAt(z, l.world, s, f);
  }

  lemma CompensateReload(z: Frozen, l: Live, s: Done, e: Env)
    requires WellFrozen(z) && Midway(z, l, s) && Undoable(s, Reload)
    ensures Retreats(z, l, s, Reload, e)
  {
    var r := Compensate(z, l, Reload, e).live;
    Frame(z, l, s, l, Without(s, Reload));
    Frame(z, l, s, r, Without(s, Reload));
    assert forall f: FileId | IsUnitConfig(f) :: l.world.files.Get(f) == z.files.Get(f);
  }

  lemma CompensateStopOld(z: Frozen, l: Live, s: Done, e: Env)
    requires WellFrozen(z) && Midway(z, l, s) && Undoable(s, StopOld)
    ensures Retreats(z, l, s, StopOld, e)
  {
    var r := Compensate(z, l, StopOld, e).live;
    Frame(z, l, s, l, Without(s, StopOld));
    Frame(z, l, s, r, Without(s, StopOld));
  }

  lemma CompensateArchive(z: Frozen, l: Live, s: Done, e: Env)
    requires WellFrozen(z) && Midway(z, l, s) && Undoable(s, ArchiveOld)
    ensures Retreats(z, l, s, ArchiveOld, e)
  {
    var r := Compensate(z, l, ArchiveOld, e).live;
    Frame(z, l, s, l, Without(s, ArchiveOld));
    Frame(z, l, s, r, Without(s, ArchiveOld));
  }

  lemma CompensateCreate(z: Frozen, l: Live, s: Done, e: Env)
    requires WellFrozen(z) && Midway(z, l, s) && Undoable(s, CreateStopped)
    ensures Retreats(z, l, s, CreateStopped, e)
  {
    var r := Compensate(z, l, CreateStopped, e).live;
    Frame(z, l, s, l, Without(s, CreateStopped));
    Frame(z, l, s, r, Without(s, CreateStopped));
  }

  lemma CompensatePolicy(z: Frozen, l: Live, s: Done, e: Env)
    requires WellFrozen(z) && Midway(z, l, s) && Undoable(s, SetTargetPolicy)
    ensures Retreats(z, l, s, SetTargetPolicy, e)
  {
    var r := Compensate(z, l, SetTargetPolicy, e).live;
    Frame(z, l, s, l, Without(s, SetTargetPolicy));
    Frame(z, l, s, r, Without(s, SetTargetPolicy));
  }

  lemma CompensateContainer(z: Frozen, l: Live, s: Done, e: Env)
    requires WellFrozen(z) && Midway(z, l, s) && Undoable(s, StartContainer)
    ensures Retreats(z, l, s, StartContainer, e)
  {
    var r := Compensate(z, l, StartContainer, e).live;
    Frame(z, l, s, l, Without(s, StartContainer));
    Frame(z, l, s, r, Without(s, StartContainer));
  }

  // ----- Re-observing a call whose return was lost -----

  lemma RefreshKeeps(z: Frozen, l: Live, s: Done, op: Op)
    requires Midway(z, l, s)
    ensures Midway(z, Refresh(z, l, op), s)
  {
    var l' := Refresh(z, l, op);
    assert l'.world == l.world;
    assert ContainersAt(z, l', s);
  }

  /** An operation already in effect is seen as DESIRED; only a target that is not healthy yet is seen
      as AMBIGUOUS.  It is never seen as OLD, so it is not applied twice. */
  lemma AlreadyApplied(z: Frozen, l: Live, s: Done, op: Op)
    requires WellFrozen(z) && Midway(z, l, With(s, op)) && Enabled(s, op)
    ensures !Observe(z, l, op).SeesOld?
    ensures Observe(z, l, op).SeesAmbiguous? ==> op.StartContainer? && !l.world.canonical.value.health.Healthy?
  {
    match op
    case StopUnit(u) => assert l.world.units.Get(u) == CLEAN_INACTIVE;
    case StartUnit(u) => assert l.world.units.Get(u) == CleanActive(u);
    case PublishFile(f) => assert l.world.files.Get(f) == Published(z.files.Get(f), z.desired.Get(f));
    case Reload =>
      assert forall f: FileId :: l.world.files.Get(f) == Published(z.files.Get(f), z.desired.Get(f));
    case _ =>
  }

  /** A compensation whose return was lost is seen as OLD.  A reload on a host that was not up to date at
      first may be seen as DESIRED once more; repeating it is harmless. */
  lemma AlreadyCompensated(z: Frozen, l: Live, s: Done, op: Op, e: Env)
    requires WellFrozen(z) && Midway(z, l, Without(s, op)) && Undoable(s, op)
    ensures
      var seen := ObserveCompensation(z, l, op);
      && !seen.SeesAmbiguous? && (seen.SeesDesired? ==> op.Reload? && !z.upToDate)
      && (seen.SeesDesired? ==>
            var r := Compensate(z, l, op, e);
            r.returned && ObserveCompensation(z, r.live, op).SeesOld? && Midway(z, r.live, Without(s, op)))
  {
    match op
    case StopUnit(u) => assert l.world.units.Get(u) == z.units.Get(u);
    case StartUnit(u) => assert l.world.units.Get(u) == CLEAN_INACTIVE;
    case PublishFile(f) => assert l.world.files.Get(f) == z.files.Get(f);
    case Reload =>
      assert forall f: FileId | IsUnitConfig(f) :: l.world.files.Get(f) == z.files.Get(f);
      Frame(z, l, Without(s, op), Compensate(z, l, op, e).live, Without(s, op));
    case _ =>
  }

  // ----- The end -----

  /** Fully compensated means: every file, unit and the container are as frozen, and what systemd has
      loaded is what is on disk if it was so at first.  Only the container's health is left to the
      outside. */
  lemma FullyCompensated(z: Frozen, l: Live)
    requires Midway(z, l, NOTHING)
    ensures FilesOld(z, l.world) && UnitsOld(z, l.world) && (z.upToDate ==> !NeedReload(l.world))
    ensures l.world.canonical.Some?
    ensures FullOld(z, l.world) <==> l.world.canonical.value.health == z.container.health
  {
  }

  // ----- The guards hold along the programs -----

  function Index(op: Op): (i: nat) {
    match op
    case StopUnit(u) => (match u case RuntimeService => 0 case RuntimeSocket => 1 case CoreService => 2)
    case StopOld => 3
    case ArchiveOld => 4
    case PublishFile(f) => 5 + FileIndex(f)
    case Reload => 11
    case StartUnit(u) => (match u case CoreService => 12 case RuntimeSocket => 13 case RuntimeService => 14)
    case CreateStopped => 15
    case SetTargetPolicy => 16
    case StartContainer => 17
  }

  function FileIndex(f: FileId): nat {
    match f
    case ReleaseSet => 0 case EpochSelector => 1 case CoreBinding => 2
    case CoreSelector => 3 case CoreGate => 4 case RuntimeDropin => 5
  }

  function ReverseIndex(op: Op): nat {
    match op
    case StartContainer => 0
    case SetTargetPolicy => 1
    case CreateStopped => 2
    case ArchiveOld => 3
    case PublishFile(f) => 9 - FileIndex(f)
    case Reload => 10
    case StartUnit(u) => (match u case RuntimeService => 11 case RuntimeSocket => 12 case CoreService => 13)
    case StopUnit(u) => (match u case CoreService => 14 case RuntimeSocket => 15 case RuntimeService => 16)
    case StopOld => 17
  }

  /** Each program lists every operation once, at the given position. */
  lemma Positions(op: Op)
    ensures Index(op) < SIZE && ProgramOp(Index(op)) == op
    ensures ReverseIndex(op) < SIZE && ReverseOp(ReverseIndex(op)) == op
  {
  }

  lemma PositionsInverse(i: nat)
    requires i < SIZE
    ensures Index(ProgramOp(i)) == i && ReverseIndex(ReverseOp(i)) == i
  {
  }

  lemma HasWith(s: Done, p: Op, op: Op)
    ensures Has(With(s, p), op) <==> Has(s, op) || op == p
    ensures Has(Without(s, p), op) <==> Has(s, op) && op != p
  {
    hide With, Without, Has;
    WithHas(s, p, op);
    WithoutHas(s, p, op);
  }

  lemma WithHas(s: Done, p: Op, op: Op)
    ensures Has(With(s, p), op) <==> Has(s, op) || op == p
  {
    hide Without;
    match p
    case StopUnit(_) =>
    case StartUnit(_) =>
    case PublishFile(_) =>
    case _ =>
  }

  lemma WithoutHas(s: Done, p: Op, op: Op)
    ensures Has(Without(s, p), op) <==> Has(s, op) && op != p
  {
    hide With;
    match p
    case StopUnit(_) =>
    case StartUnit(_) =>
    case PublishFile(_) =>
    case _ =>
  }

  lemma Nothing(s: Done)
    requires forall op: Op :: !Has(s, op)
    ensures s == NOTHING
  {
    HasBy(s);
    assert s.stopped == AllUnits(false) && s.started == AllUnits(false) && s.published == AllFiles(false) by {
      assert forall u: UnitId :: !s.stopped.Get(u) && !s.started.Get(u);
      assert forall f: FileId :: !s.published.Get(f);
      UniformUnits(s.stopped);
      UniformUnits(s.started);
      UniformFiles(s.published);
    }
  }

  lemma UniformUnits(m: PerUnit<bool>)
    requires forall u: UnitId :: !m.Get(u)
    ensures m == AllUnits(false)
  {
    assert !m.Get(CoreService) && !m.Get(RuntimeSocket) && !m.Get(RuntimeService);
  }

  lemma UniformFiles(m: PerFile<bool>)
    requires forall f: FileId :: !m.Get(f)
    ensures m == AllFiles(false)
  {
    assert !m.Get(ReleaseSet) && !m.Get(EpochSelector) && !m.Get(CoreBinding);
    assert !m.Get(CoreSelector) && !m.Get(CoreGate) && !m.Get(RuntimeDropin);
  }

  /** The first `k` operations of the program. */
  function Prefix(k: nat): Done
    requires k <= SIZE
  {
    if k == 0 then NOTHING else With(Prefix(k - 1), ProgramOp(k - 1))
  }

  lemma {:induction false} PrefixHas(k: nat, op: Op)
    requires k <= SIZE
    ensures Has(Prefix(k), op) <==> Index(op) < k
  {
    if k > 0 {
      PrefixHas(k - 1, op);
      HasWith(Prefix(k - 1), ProgramOp(k - 1), op);
      PositionsInverse(k - 1);
      Positions(op);
    }
  }

  lemma ProgramEnabled(k: nat)
    requires k < SIZE
    ensures Enabled(Prefix(k), ProgramOp(k))
  {
    PositionsInverse(k);
    forall op: Op ensures Has(Prefix(k), op) <==> Index(op) < k { PrefixHas(k, op); }
    EnabledBy(Prefix(k), ProgramOp(k));
  }

  lemma EnabledBy(s: Done, op: Op)
    requires forall x: Op :: Has(s, x) <==> Index(x) < Index(op)
    ensures Enabled(s, op)
  {
    HasBy(s);
  }

  /** `Has` spelled out for the record's fields. */
  lemma HasBy(s: Done)
    ensures forall u: UnitId :: s.stopped.Get(u) == Has(s, StopUnit(u)) && s.started.Get(u) == Has(s, StartUnit(u))
    ensures forall f: FileId :: s.published.Get(f) == Has(s, PublishFile(f))
    ensures s.reloaded == Has(s, Reload) && s.oldStopped == Has(s, StopOld) && s.oldArchived == Has(s, ArchiveOld)
    ensures s.created == Has(s, CreateStopped) && s.policySet == Has(s, SetTargetPolicy) && s.running == Has(s, StartContainer)
  {
  }

  /** The completed operations, in the order of compensation. */
  function RollbackProgram(completed: seq<Op>): seq<Op> {
    Select(0, completed)
  }

  /** `tuple(item for item in _S2_REVERSE if item in completed)`, from position `j` on. */
  function Select(j: nat, completed: seq<Op>): seq<Op>
    decreases SIZE - j
  {
    if j >= SIZE then []
    else if ReverseOp(j) in completed then [ReverseOp(j)] + Select(j + 1, completed)
    else Select(j + 1, completed)
  }

  ghost predicate Ascending(xs: seq<Op>) {
    forall i, j | 0 <= i < j < |xs| :: ReverseIndex(xs[i]) < ReverseIndex(xs[j])
  }

  lemma {:induction false} SelectOrdered(j: nat, completed: seq<Op>)
    requires j <= SIZE
    ensures forall op: Op :: op in Select(j, completed) <==> op in completed && j <= ReverseIndex(op)
    ensures Ascending(Select(j, completed))
    decreases SIZE - j
  {
    forall op: Op ensures ReverseIndex(op) < SIZE && (j < SIZE ==> (ReverseIndex(op) == j <==> op == ReverseOp(j))) {
      Positions(op);
      if j < SIZE { PositionsInverse(j); }
    }
    if j < SIZE {
      SelectOrdered(j + 1, completed);
    }
  }

  lemma {:induction false} InFirst(k: nat, op: Op)
    requires k <= SIZE
    ensures op in First(k) <==> Index(op) < k
  {
    Positions(op);
    if k > 0 {
      InFirst(k - 1, op);
      PositionsInverse(k - 1);
    }
  }

  /** Compensation runs in reverse order over exactly the completed operations. */
  lemma RollbackOrdered(k: nat)
    requires k <= SIZE
    ensures forall op: Op :: op in RollbackProgram(First(k)) <==> Index(op) < k
    ensures Ascending(RollbackProgram(First(k)))
  {
    SelectOrdered(0, First(k));
    forall op: Op ensures op in First(k) <==> Index(op) < k {
      InFirst(k, op);
    }
  }

  lemma {:induction false} SelectGrows(j: nat, completed: seq<Op>, op: Op)
    requires j <= SIZE && op !in completed
    ensures |Select(j, completed + [op])| == |Select(j, completed)| + (if j <= ReverseIndex(op) then 1 else 0)
    decreases SIZE - j
  {
    Positions(op);
    if j < SIZE {
      PositionsInverse(j);
      SelectGrows(j + 1, completed, op);
    }
  }

  lemma {:induction false} SelectNothing(j: nat)
    requires j <= SIZE
    ensures Select(j, []) == []
    decreases SIZE - j
  {
    if j < SIZE {
      SelectNothing(j + 1);
    }
  }

  /** Each completed operation is compensated once. */
  lemma {:induction false} RollbackLength(k: nat)
    requires k <= SIZE
    ensures |RollbackProgram(First(k))| == k
  {
    if k == 0 {
      SelectNothing(0);
    } else {
      RollbackLength(k - 1);
      PositionsInverse(k - 1);
      InFirst(k - 1, ProgramOp(k - 1));
      SelectGrows(0, First(k - 1), ProgramOp(k - 1));
    }
  }

  /** What is left in effect when the first `p` compensations after `k` operations are done. */
  function Remaining(k: nat, p: nat): Done
    requires k <= SIZE && p <= |RollbackProgram(First(k))|
  {
    if p == 0 then Prefix(k) else Without(Remaining(k, p - 1), RollbackProgram(First(k))[p - 1])
  }

  lemma {:induction false} RemainingHas(k: nat, p: nat, op: Op)
    requires k <= SIZE && p <= |RollbackProgram(First(k))|
    ensures Has(Remaining(k, p), op) <==> Index(op) < k && op !in RollbackProgram(First(k))[..p]
  {
    hide Has, Without, RollbackProgram, First, Index, Prefix;
    PrefixHas(k, op);
    if p > 0 {
      var program := RollbackProgram(First(k));
      RemainingHas(k, p - 1, op);
      HasWith(Remaining(k, p - 1), program[p - 1], op);
      assert program[..p] == program[..p - 1] + [program[p - 1]];
    }
  }

  lemma RollbackUndoable(k: nat, p: nat)
    requires k <= SIZE && p < |RollbackProgram(First(k))|
    ensures Undoable(Remaining(k, p), RollbackProgram(First(k))[p])
  {
    var program := RollbackProgram(First(k));
    RollbackOrdered(k);
    assert program[p] in program;
    forall x: Op
      ensures Has(Remaining(k, p), x) <==> Index(x) < k && ReverseIndex(program[p]) <= ReverseIndex(x)
    {
      RemainingHas(k, p, x);
      if x in program { SplitAscending(program, p, x); }
    }
    UndoableBy(Remaining(k, p), k, program[p]);
  }

  lemma SplitAscending(xs: seq<Op>, p: nat, x: Op)
    requires Ascending(xs) && p < |xs| && x in xs
    ensures x in xs[..p] <==> ReverseIndex(x) < ReverseIndex(xs[p])
  {
    var i :| 0 <= i < |xs| && xs[i] == x;
    if i < p {
      assert xs[..p][i] == x;
    }
  }

  lemma UndoableBy(s: Done, k: nat, op: Op)
    requires Index(op) < k
    requires forall x: Op :: Has(s, x) <==> Index(x) < k && ReverseIndex(op) <= ReverseIndex(x)
    ensures Undoable(s, op)
  {
    HasBy(s);
  }

  lemma RollbackEnds(k: nat)
    requires k <= SIZE
    ensures Remaining(k, |RollbackProgram(First(k))|) == NOTHING
  {
    var program := RollbackProgram(First(k));
    RollbackOrdered(k);
    assert program[..|program|] == program;
    forall op: Op ensures !Has(Remaining(k, |program|), op) {
      RemainingHas(k, |program|, op);
    }
    Nothing(Remaining(k, |program|));
  }
}
