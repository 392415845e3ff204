/** The old container survives any use of the backend, in the driver's order or in any other. */
module PhaseFContainers {
  import opened PhaseFWorld
  import opened PhaseFBackend
  import opened PhaseFDriver

  datatype Call =
    | ObserveCall(op: Op)
    | ApplyCall(op: Op, env: Env, fault: Fault)
    | CompensateCall(op: Op, env: Env, fault: Fault)
    | ForwardOldCall(forward: ForwardOp, env: Env, fault: Fault)

  function After(z: Frozen, l: Live, c: Call): Live {
    match c
    case ObserveCall(op) => Refresh(z, l, op)
    case ApplyCall(op, e, f) => Faulted(l, Apply(z, l, op, e), PublishedFile(op), f).live
    case CompensateCall(op, e, f) => Faulted(l, Compensate(z, l, op, e), CompensatedFile(z, op), f).live
    case ForwardOldCall(op, e, f) => Faulted(l, ApplyForward(z, l, op, e), ForwardedFile(z, op), f).live
  }

  function AfterAll(z: Frozen, l: Live, calls: seq<Call>): Live
    decreases |calls|
  {
    if calls == [] then l else AfterAll(z, After(z, l, calls[0]), calls[1..])
  }

  /** The old container is there, under exactly one of the two names. */
  predicate OldHeldOnce(z: Frozen, w: World) {
    if IsOld(z, w.canonical) then w.archived.None? else IsOld(z, w.archived)
  }

  /** What the backend remembers as the target was created by this plan. */
  predicate RemembersTarget(z: Frozen, l: Live) {
    l.observed.Some? ==> l.observed.value.plan == z.target.plan
  }

  lemma CallKeepsOld(z: Frozen, l: Live, c: Call)
    requires z.container.plan != z.target.plan && OldHeldOnce(z, l.world) && RemembersTarget(z, l)
    ensures OldHeldOnce(z, After(z, l, c).world) && RemembersTarget(z, After(z, l, c))
  {
    match c
    case ObserveCall(op) =>
    case ApplyCall(op, e, f) => ApplyKeepsOld(z, l, op, e);
    case CompensateCall(op, e, f) => CompensateKeepsOld(z, l, op, e);
    case ForwardOldCall(op, e, f) => ForwardKeepsOld(z, l, op, e);
  }

  lemma ApplyKeepsOld(z: Frozen, l: Live, op: Op, e: Env)
    requires z.container.plan != z.target.plan && OldHeldOnce(z, l.world) && RemembersTarget(z, l)
    ensures OldHeldOnce(z, Apply(z, l, op, e).live.world) && RemembersTarget(z, Apply(z, l, op, e).live)
  {
  }

  lemma CompensateKeepsOld(z: Frozen, l: Live, op: Op, e: Env)
    requires z.container.plan != z.target.plan && OldHeldOnce(z, l.world) && RemembersTarget(z, l)
    ensures OldHeldOnce(z, Compensate(z, l, op, e).live.world) && RemembersTarget(z, Compensate(z, l, op, e).live)
  {
  }

  lemma ForwardKeepsOld(z: Frozen, l: Live, op: ForwardOp, e: Env)
    requires z.container.plan != z.target.plan && OldHeldOnce(z, l.world) && RemembersTarget(z, l)
    ensures OldHeldOnce(z, ApplyForward(z, l, op, e).live.world) && RemembersTarget(z, ApplyForward(z, l, op, e).live)
  {
  }

  /** Over any sequence of observations, applications, compensations and forward-to-old steps, in any
      order and with any fault, the old container is never removed and never altered beyond its
      status, and it keeps exactly one of its two names. */
  lemma {:induction false} OldNeverLost(z: Frozen, l: Live, calls: seq<Call>)
    requires z.container.plan != z.target.plan && OldHeldOnce(z, l.world) && RemembersTarget(z, l)
    ensures OldHeldOnce(z, AfterAll(z, l, calls).world)
    decreases |calls|
  {
    if calls != [] {
      CallKeepsOld(z, l, calls[0]);
      OldNeverLost(z, After(z, l, calls[0]), calls[1..]);
    }
  }
}
