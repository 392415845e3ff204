/** The generation-13 projections and how two of them are compared across a restart: on every field but
    the digest of the epoch metadata that the service saw when it started. */
module RestartProjection {
  import opened PhaseFWorld

  // ----- Epoch metadata -----

  datatype EpochMeta = EpochMeta(
    epochId: string, releaseSet: string, schema: string,
    selectedRevision: int, maxRevision: int, turns: int, summaries: int, delivered: int,
    pending: int, queuedSummaries: int, abandoned: int, blocked: int)

  /** Digests remember what they were taken of. */
  datatype MetaDigest = MetaDigest(of: EpochMeta)
  datatype IdentityDigest = IdentityDigest(epochId: string, releaseSet: string, schema: string)

  datatype Epoch = Epoch(metadata: EpochMeta, metadataDigest: MetaDigest, identity: IdentityDigest, inProgress: int,
          quiescent: bool)

  predicate Counts(m: EpochMeta) {
    && m.selectedRevision >= 0 && m.maxRevision >= 0 && m.turns >= 0 && m.summaries >= 0 && m.delivered >= 0
    && m.pending >= 0 && m.queuedSummaries >= 0 && m.abandoned >= 0 && m.blocked >= 0
  }

  /** Nothing is in flight and every revision is accounted for. */
  predicate Quiescent(m: EpochMeta) {
    && m.selectedRevision == m.maxRevision && m.selectedRevision == m.turns + m.summaries && m.turns == m.delivered
    && m.pending == 0 && m.queuedSummaries == 0 && m.abandoned == 0 && m.blocked == 0
  }

  /** `_typed_epoch_projection`. */
  function TypedEpoch(m: EpochMeta, epochId: string, releaseSet: string, schema: string): Option<Epoch> {
    if !Counts(m) || m.epochId == "" || m.releaseSet == "" || m.schema == "" then None
    else if m.epochId != epochId || m.releaseSet != releaseSet || m.schema != schema then None
    else if !Quiescent(m) then None
    else Some(Epoch(m, MetaDigest(m), IdentityDigest(m.epochId, m.releaseSet, m.schema), m.pending, true))
  }

  // ----- Readiness -----

  const READINESS_SCHEMA := "myuna.p07-d-runtime-readiness.v1"
  const EPOCH_SCHEMA := "myuna.external-authorized-epoch.v3"
  const SEMANTICS := "startup_observation_only_not_current_epoch_gate"

  /** The identity part of a readiness receipt; its own digest is taken over the first five fields. */
  datatype ReadinessIdentity = ReadinessIdentity(
    schema: string, generation: int, releaseSet: string, selector: nat, config: nat)

  datatype Readiness = Readiness(identity: ReadinessIdentity, digest: ReadinessIdentity, startupEpoch: MetaDigest,
          semantics: string)

  /** `process` is the pid, invocation and bindings of the probed service. */
  datatype Receipt = Receipt(identity: ReadinessIdentity, startupEpoch: MetaDigest, process: nat)

  datatype ReleaseSet = ReleaseSet(id: string, epochId: string, selector: nat, config: nat)

  /** `_readiness_identity_projection`: the process is left out. */
  function ProjectReadiness(r: Receipt, rs: ReleaseSet): Option<Readiness> {
    if r.identity != ReadinessIdentity(READINESS_SCHEMA, 13, rs.id, rs.selector, rs.config) then None
    else Some(Readiness(r.identity, r.identity, r.startupEpoch, SEMANTICS))
  }

  // ----- The whole projection -----

  /** An anchor the owner accepted: the counters and the metadata digest. */
  datatype Checkpoint = Checkpoint(
    selectedRevision: int, maxRevision: int, turns: int, summaries: int, delivered: int,
    pending: int, queuedSummaries: int, abandoned: int, blocked: int, inProgress: int, metadata: MetaDigest)

  function CheckpointOf(e: Epoch): Checkpoint {
    var m := e.metadata;
    Checkpoint(m.selectedRevision, m.maxRevision, m.turns, m.summaries, m.delivered,
               m.pending, m.queuedSummaries, m.abandoned, m.blocked, e.inProgress, e.metadataDigest)
  }

  /** `files` stands for the release-set, selector, runtime-config and drop-in projections and the P08
      selection. */
  datatype Projection = Projection(files: nat, readiness: Readiness, epoch: Epoch, anchor: Checkpoint)

  /** `_generation13_projection`: the metadata is read twice and must not move in between. */
  function Project(files: nat, rs: ReleaseSet, receipt: Receipt, first: EpochMeta, second: EpochMeta,
          anchor: Checkpoint): Option<Projection> {
    var readiness := ProjectReadiness(receipt, rs);
    var epoch := TypedEpoch(first, rs.epochId, rs.id, EPOCH_SCHEMA);
    if readiness.None? || epoch.None? || TypedEpoch(second, rs.epochId, rs.id, EPOCH_SCHEMA) != epoch then None
    else if CheckpointOf(epoch.value) != anchor then None
    else Some(Projection(files, readiness.value, epoch.value, anchor))
  }

  datatype Stable = Stable(files: nat, identity: ReadinessIdentity, digest: ReadinessIdentity, semantics: string,
          epoch: Epoch, anchor: Checkpoint)

  /** `_restart_stable_generation13_projection`. */
  function RestartStable(p: Projection, restarted: bool): Option<Stable> {
    var m := p.epoch.metadata;
    if TypedEpoch(m, m.epochId, m.releaseSet, m.schema) != Some(p.epoch) then None
    else if p.readiness.identity.schema != READINESS_SCHEMA || p.readiness.identity.generation != 13
            || p.readiness.semantics != SEMANTICS then None
    else if restarted && p.readiness.startupEpoch != p.epoch.metadataDigest then None
    else Some(Stable(p.files, p.readiness.identity, p.readiness.digest, p.readiness.semantics, p.epoch, p.anchor))
  }

  /** `_require_post_restart_generation13_convergence` passes. */
  predicate Converges(current: Projection, expected: Projection) {
    && RestartStable(current, true).Some? && RestartStable(expected, false).Some?
    && RestartStable(current, true) == RestartStable(expected, false)
  }

  /** Whatever `_generation13_projection` builds, the normaliser takes. */
  lemma BuiltIsStable(files: nat, rs: ReleaseSet, receipt: Receipt, first: EpochMeta, second: EpochMeta,
          anchor: Checkpoint)
    requires Project(files, rs, receipt, first, second, anchor).Some?
    ensures RestartStable(Project(files, rs, receipt, first, second, anchor).value, false).Some?
    ensures first == second
  {
  }

  /** A restart is invisible but for the startup digest: the two projections agree on everything else,
      and the current service started from the epoch that is there now. */
  lemma ConvergesIff(current: Projection, expected: Projection)
    ensures Converges(current, expected) <==>
            && RestartStable(expected, false).Some?
            && current == expected.(readiness := expected.readiness.(startupEpoch := current.readiness.startupEpoch))
            && current.readiness.startupEpoch == current.epoch.metadataDigest
  {
    var r, r' := current.readiness, expected.readiness;
    if Converges(current, expected) {
      assert r == r'.(startupEpoch := r.startupEpoch);
      assert current == expected.(readiness := r);
    }
  }

  /** The accepted anchor pins the epoch: projections taken under one anchor, at any two times, hold the
      same metadata, and so a service that passed the check after a restart started from that metadata. */
  lemma AnchorPinsEpoch(p: Projection, q: Projection)
    requires RestartStable(p, false).Some? && RestartStable(q, false).Some?
    requires p.anchor == CheckpointOf(p.epoch) && q.anchor == CheckpointOf(q.epoch)
    ensures p.anchor == q.anchor <==> p.epoch == q.epoch
  {
    assert p.anchor == q.anchor ==> p.epoch.metadataDigest == q.epoch.metadataDigest;
  }

  /** Over a chain of checks, each against the projection before, the epoch never moves and the last
      check would also pass against the first projection. */
  lemma {:induction false} ChainedChecks(chain: seq<Projection>)
    requires |chain| >= 2
    requires forall i | 0 <= i < |chain| - 1 :: Converges(chain[i + 1], chain[i])
    ensures Converges(chain[|chain| - 1], chain[0])
    ensures chain[|chain| - 1].epoch == chain[0].epoch
  {
    var n := |chain| - 1;
    ConvergesIff(chain[n], chain[n - 1]);
    assert Converges(chain[n - 1 + 1], chain[n - 1]);
    if n >= 2 {
      var before := chain[..n];
      assert forall i | 0 <= i < |before| - 1 :: Converges(before[i + 1], before[i]) by {
        forall i | 0 <= i < |before| - 1 ensures Converges(before[i + 1], before[i]) {
          assert Converges(chain[i + 1], chain[i]);
        }
      }
      ChainedChecks(before);
      ConvergesIff(chain[n - 1], chain[0]);
      ConvergesIff(chain[n], chain[0]);
    } else {
      assert Converges(chain[0 + 1], chain[0]);
    }
  }

  // ----- The rollback's own check -----

  /** A captured prestate; `rest` is everything that is compared literally. */
  datatype Captured = Captured(attempts: int, rest: nat, generation13: Projection)

  /** `_require_rollback_prestate_convergence` on what `_restore_prestate` passes to it. */
  predicate RollbackConverges(current: Captured, planned: Captured) {
    var expected := planned.(attempts := current.attempts);
    && Converges(current.generation13, expected.generation13)
    && current.attempts == expected.attempts && current.rest == expected.rest
  }

  /** Spending the attempt is the one other difference a rollback forgives. */
  lemma RollbackConvergesIff(current: Captured, planned: Captured)
    ensures RollbackConverges(current, planned) <==>
            && RestartStable(planned.generation13, false).Some?
            && current.rest == planned.rest
            && current.generation13 == planned.generation13.(readiness := planned.generation13.readiness.(
                 startupEpoch := planned.generation13.epoch.metadataDigest))
  {
    ConvergesIff(current.generation13, planned.generation13);
  }
}
