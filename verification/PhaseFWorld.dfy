/** The host that a phase-F activation changes: six files with their publish-time temporary names,
    three systemd units, one container under a canonical or an archive name, the unit configuration
    systemd has loaded, and an opaque network projection.

    The container primitives are those of telegram_r5_boot_resume.py.  Each gives the host it leaves
    and whether the call returned; a call that did not return raised a rejection. */
module PhaseFWorld {

  datatype Option<+T> = None | Some(value: T)

  newtype byte = x: int | 0 <= x < 256
  type Bytes = seq<byte>

  // ----- Files -----

  datatype FileId = ReleaseSet | EpochSelector | CoreBinding | CoreSelector | CoreGate | RuntimeDropin

  /** A path as `_phase_f_file_state` projects it.  Content digests are collision free, so comparing
      digests is comparing payloads. */
  datatype FileState = Absent | Present(payload: Bytes, uid: nat, gid: nat, mode: nat)

  /** One value for each of the six paths. */
  datatype PerFile<V> = PerFile(releaseSet: V, epochSelector: V, coreBinding: V, coreSelector: V, coreGate: V,
          runtimeDropin: V) {
    function Get(f: FileId): V {
      match f
      case ReleaseSet => releaseSet
      case EpochSelector => epochSelector
      case CoreBinding => coreBinding
      case CoreSelector => coreSelector
      case CoreGate => coreGate
      case RuntimeDropin => runtimeDropin
    }

    function Set(f: FileId, v: V): PerFile<V> {
      match f
      case ReleaseSet => this.(releaseSet := v)
      case EpochSelector => this.(epochSelector := v)
      case CoreBinding => this.(coreBinding := v)
      case CoreSelector => this.(coreSelector := v)
      case CoreGate => this.(coreGate := v)
      case RuntimeDropin => this.(runtimeDropin := v)
    }
  }

  function AllFiles<V>(v: V): PerFile<V> {
    PerFile(v, v, v, v, v, v)
  }

  const ROOT: nat := 0
  const DEFAULT_MODE: nat := 0x1A0  // 0o640

  /** What a completed publish leaves at the path: the new payload under the old owner and mode. */
  function Published(prior: FileState, payload: Bytes): FileState {
    match prior
    case Absent => Present(payload, ROOT, ROOT, DEFAULT_MODE)
    case Present(_, uid, gid, mode) => Present(payload, uid, gid, mode)
  }

  predicate HasPayload(state: FileState, payload: Bytes) {
    state.Present? && state.payload == payload
  }

  /** The three paths under /etc/systemd/system, the only ones a daemon-reload reads. */
  predicate IsUnitConfig(f: FileId) {
    f.CoreSelector? || f.CoreGate? || f.RuntimeDropin?
  }

  // ----- Units -----

  datatype UnitId = CoreService | RuntimeSocket | RuntimeService
  datatype ActiveState = Active | Inactive | OtherState
  datatype SubState = Serving | Listening | Dead | OtherSub
  datatype UnitState = UnitState(active: ActiveState, sub: SubState, success: bool, job: bool)

  /** One value for each of the three units. */
  datatype PerUnit<V> = PerUnit(coreService: V, runtimeSocket: V, runtimeService: V) {
    function Get(u: UnitId): V {
      match u
      case CoreService => coreService
      case RuntimeSocket => runtimeSocket
      case RuntimeService => runtimeService
    }

    function Set(u: UnitId, v: V): PerUnit<V> {
      match u
      case CoreService => this.(coreService := v)
      case RuntimeSocket => this.(runtimeSocket := v)
      case RuntimeService => this.(runtimeService := v)
    }
  }

  function AllUnits<V>(v: V): PerUnit<V> {
    PerUnit(v, v, v)
  }

  const CLEAN_INACTIVE := UnitState(Inactive, Dead, true, false)

  function CleanActive(u: UnitId): UnitState {
    UnitState(Active, if u.RuntimeSocket? then Listening else Serving, true, false)
  }

  // ----- Containers -----

  datatype Status = Created | Exited | Running | OtherStatus
  datatype Health = NoHealth | Starting | Healthy | Unhealthy
  datatype PolicyName = NoRestart | OnFailure | OtherPolicy
  datatype Policy = Policy(name: PolicyName, retries: nat)

  const NO_POLICY := Policy(NoRestart, 0)
  const EXPECTED_POLICY := Policy(OnFailure, 3)

  /** Which networks a container is configured for: the external one the activation is about, and what
      others; `others` is 0 for none. */
  datatype Networks = Networks(external: bool, others: nat)

  /** `body` stands for the project, service, command, host-config, mounts and effect digests, which
      every identity check compares together; `endpoints` for the run-time network settings. */
  datatype Container = Container(
    id: nat, image: nat, user: nat, plan: nat, config: nat, body: nat,
    networks: Networks, endpoints: nat, status: Status, health: Health, policy: Policy)

  predicate IsStopped(c: Container) {
    c.status.Created? || c.status.Exited?
  }

  /** `_phase_f_same_object`; the name check is the slot the container was read from. */
  predicate SameObject(expected: Container, observed: Option<Container>,
                       allowStatus: bool, allowPolicy: bool, allowNetwork: bool) {
    && observed.Some?
    && var o := observed.value;
    && o.id == expected.id && o.image == expected.image && o.user == expected.user
    && o.plan == expected.plan && o.config == expected.config && o.body == expected.body
    && o.networks == expected.networks
    && (allowNetwork || o.endpoints == expected.endpoints)
    && (allowStatus || (o.status == expected.status && o.health == expected.health))
    && (allowPolicy || o.policy == expected.policy)
  }

  datatype Target = Target(image: nat, user: nat, plan: nat, config: nat, body: nat)

  /** The external network and no other. */
  const TARGET_NETWORKS := Networks(true, 0)

  /** `_target_matches` on the container read under the canonical name. */
  predicate TargetMatches(t: Target, observed: Option<Container>) {
    && observed.Some?
    && observed.value.image == t.image && observed.value.plan == t.plan
    && observed.value.config == t.config && observed.value.user == t.user
    && observed.value.networks == TARGET_NETWORKS
  }

  // ----- The host -----

  /** `network` is the external network apart from its members, `foreign` the members other than the two
      containers. */
  datatype World = World(
    files: PerFile<FileState>, temps: set<FileId>, units: PerUnit<UnitState>, loaded: PerFile<FileState>,
    canonical: Option<Container>, archived: Option<Container>, network: nat, foreign: set<nat>)

  /** A network lists the containers that run on it. */
  function Joined(c: Option<Container>): set<nat> {
    if c.Some? && c.value.status.Running? && c.value.networks.external then {c.value.id} else {}
  }

  function Members(w: World): set<nat> {
    w.foreign + Joined(w.canonical) + Joined(w.archived)
  }

  /** The network as it was expected, members included. */
  datatype Network = Network(identity: nat, members: set<nat>)

  predicate NetworkIs(w: World, expected: Network) {
    w.network == expected.identity && Members(w) == expected.members
  }

  /** systemd's NeedDaemonReload: what is on disk differs from what is loaded. */
  predicate NeedReload(w: World) {
    exists f: FileId :: IsUnitConfig(f) && w.loaded.Get(f) != w.files.Get(f)
  }

  function DaemonReload(w: World): World {
    w.(loaded := w.files)
  }

  datatype Outcome = Outcome(world: World, returned: bool)

  function Rejected(w: World): Outcome {
    Outcome(w, false)
  }

  function SetUnit(w: World, u: UnitId, start: bool): World {
    w.(units := w.units.Set(u, if start then CleanActive(u) else CLEAN_INACTIVE))
  }

  /** `_phase_f_atomic_publish` seen from outside: it fails while the temporary name exists. */
  function Publish(w: World, f: FileId, payload: Bytes, prior: FileState): Outcome {
    if f in w.temps then Rejected(w)
    else Outcome(w.(files := w.files.Set(f, Published(prior, payload))), true)
  }

  /** `_phase_f_restore_file`: republish the snapshot, or unlink what the snapshot says was absent. */
  function RestoreFile(w: World, f: FileId, prior: FileState): Outcome {
    match prior
    case Present(payload, _, _, _) => Publish(w, f, payload, prior)
    case Absent => Outcome(w.(files := w.files.Set(f, Absent)), true)
  }

  function StopContainer(w: World, expected: Container): Outcome {
    if !SameObject(expected, w.canonical, true, false, false) then Rejected(w)
    else if IsStopped(w.canonical.value) then Outcome(w, true)
    else if !w.canonical.value.status.Running? then Rejected(w)
    else Outcome(w.(canonical := Some(w.canonical.value.(status := Exited))), true)
  }

  /** Rename between the two names; `archive` says in which direction. */
  function RenameContainer(w: World, expected: Container, archive: bool): Outcome {
    var source := if archive then w.canonical else w.archived;
    var target := if archive then w.archived else w.canonical;
    if target.Some? then Outcome(w, source.None? && SameObject(expected, target, true, false, false))
    else if !SameObject(expected, source, true, false, false) || !IsStopped(source.value) then Rejected(w)
    else if archive then Outcome(w.(canonical := None, archived := source), true)
    else Outcome(w.(canonical := source, archived := None), true)
  }

  /** A network that is expected to have members is refused. */
  function CreateTarget(w: World, t: Target, expected: Network, id: nat): Outcome {
    if !NetworkIs(w, expected) || expected.members != {} || w.canonical.Some? || w.archived.None? then Rejected(w)
    else Outcome(w.(canonical := Some(Container(
      id, t.image, t.user, t.plan, t.config, t.body, TARGET_NETWORKS, 0, Created, NoHealth, NO_POLICY))), true)
  }

  function SetPolicy(w: World, expected: Container): Outcome {
    if !SameObject(expected, w.canonical, false, true, false) then Rejected(w)
    else if w.canonical.value.policy == EXPECTED_POLICY then Outcome(w, true)
    else if w.canonical.value.policy != NO_POLICY then Rejected(w)
    else Outcome(w.(canonical := Some(w.canonical.value.(policy := EXPECTED_POLICY))), true)
  }

  /** Start and wait for health; a container that does not become healthy is left running. */
  function StartTarget(w: World, expected: Container, health: Health): Outcome {
    if !SameObject(expected, w.canonical, true, false, true) then Rejected(w)
    else if w.canonical.value.status.Running? && w.canonical.value.health.Healthy? then Outcome(w, true)
    else if !IsStopped(w.canonical.value) then Rejected(w)
    else Outcome(w.(canonical := Some(w.canonical.value.(status := Running, health := health))), health.Healthy?)
  }

  /** Unlike `StartTarget` this does not wait for health. */
  function RestoreOldRunning(w: World, expected: Container, health: Health): Outcome {
    if !SameObject(expected, w.canonical, true, false, true) then Rejected(w)
    else if IsStopped(expected) then Outcome(w, IsStopped(w.canonical.value))
    else if !expected.status.Running? then Rejected(w)
    else if w.canonical.value.status.Running? then Outcome(w, true)
    else if !IsStopped(w.canonical.value) then Rejected(w)
    else Outcome(w.(canonical := Some(w.canonical.value.(status := Running, health := health))), true)
  }

  /** The network is compared after the removal. */
  function RemoveContainer(w: World, expected: Container, network: Network): Outcome {
    if w.canonical.None? then Outcome(w, NetworkIs(w, network))
    else if !SameObject(expected, w.canonical, true, true, false) then Rejected(w)
    else if !IsStopped(w.canonical.value) then Rejected(w)
    else Outcome(w.(canonical := None), NetworkIs(w.(canonical := None), network))
  }

  /** `docker container update --restart no` on the container just matched against the target. */
  function ClearPolicy(w: World, t: Target): Outcome {
    if !TargetMatches(t, w.canonical) then Rejected(w)
    else Outcome(w.(canonical := Some(w.canonical.value.(policy := NO_POLICY))), true)
  }
}
