/** `_wait_telegram_convergence`: polling until the service has been ready, as one process with one
    binding, for long enough.

    The world is an endless trace of polls.  Times are clock readings in milliseconds; a poll records
    the reading at the loop test and the one taken after the readiness probe. */
module Convergence {
  import opened PhaseFWorld

  const CONVERGENCE_MILLISECONDS: int := 10000

  datatype Identity = Identity(pid: int, invocation: nat, binding: nat)

  /** What observing the service gives.  `NotFound` is the one refusal that is tolerated. */
  datatype Service =
    | NotFound
    | Refused
    | Malformed
    | Seen(succeeded: bool, restarts: int, running: bool, pid: int, invocation: Option<nat>, binding: nat)

  datatype Probe =
    | ReadinessAbsent
    | ProbeRefused
    | Receipt(pid: int, invocation: nat, servicePid: int, serviceInvocation: nat)

  datatype Poll = Poll(start: int, service: Service, probe: Probe, probed: int)

  type Trace = nat -> Poll

  /** Sleeping `poll` advances the clock by at least that much, and the clock never runs back. */
  ghost predicate Clock(trace: Trace, started: int, poll: int) {
    && started <= trace(0).start
    && forall i: nat :: Ticks(trace, poll, i)
  }

  ghost predicate Ticks(trace: Trace, poll: int, i: nat) {
    trace(i).start <= trace(i).probed && trace(i).probed + poll <= trace(i + 1).start
  }

  // ----- One poll -----

  datatype Sample = Rejects | Waits | IsReady(identity: Identity)

  predicate IsActive(s: Service) {
    s.Seen? && s.running && s.pid > 0 && s.invocation.Some?
  }

  function Classify(p: Poll, binding: nat): Sample {
    match p.service
    case NotFound => Waits
    case Refused => Rejects
    case Malformed => Rejects
    case Seen(succeeded, restarts, running, pid, invocation, bound) =>
      if !succeeded || restarts != 0 then Rejects
      else if !IsActive(p.service) then Waits
      else if bound != binding then Rejects
      else
        match p.probe
        case ProbeRefused => Rejects
        case ReadinessAbsent => Waits
        case Receipt(rpid, rinvocation, spid, sinvocation) =>
          if rpid == pid && rinvocation == invocation.value && spid == pid && sinvocation == invocation.value
          then IsReady(Identity(pid, invocation.value, bound))
          else Waits
  }

  // ----- What convergence means on the trace -----

  ghost predicate Ready(trace: Trace, binding: nat, i: nat, id: Identity) {
    Classify(trace(i), binding) == IsReady(id)
  }

  /** The identity changed between two adjacent ready polls. */
  ghost predicate Drifts(trace: Trace, binding: nat, i: nat) {
    && i > 0 && Classify(trace(i), binding).IsReady? && Classify(trace(i - 1), binding).IsReady?
    && Classify(trace(i), binding) != Classify(trace(i - 1), binding)
  }

  ghost predicate Broken(trace: Trace, binding: nat, i: nat) {
    Classify(trace(i), binding).Rejects? || Drifts(trace, binding, i)
  }

  /** Every poll of the window `m..n` is ready with this identity, and the window is long enough. */
  ghost predicate Steady(trace: Trace, binding: nat, stable: int, m: nat, n: nat, id: Identity) {
    && m <= n && trace(n).probed - trace(m).probed >= stable
    && forall k: nat | m <= k <= n :: Ready(trace, binding, k, id)
  }

  ghost predicate Settles(trace: Trace, binding: nat, stable: int, n: nat) {
    exists m: nat, id: Identity :: Steady(trace, binding, stable, m, n, id)
  }

  /** Nothing has ended the wait before poll `n`. */
  ghost predicate Undecided(trace: Trace, binding: nat, stable: int, deadline: int, n: nat) {
    forall i: nat | i < n ::
      trace(i).start <= deadline && !Broken(trace, binding, i) && !Settles(trace, binding, stable, i)
  }

  datatype Verdict = Converged(at: nat, identity: Identity) | Failed(at: nat) | TimedOut(at: nat)

  ghost predicate Decides(trace: Trace, binding: nat, stable: int, deadline: int, v: Verdict) {
    match v
    case Converged(n, id) =>
      && Undecided(trace, binding, stable, deadline, n) && trace(n).start <= deadline && !Broken(trace, binding, n)
      && Ready(trace, binding, n, id) && Settles(trace, binding, stable, n)
    case Failed(n) =>
      Undecided(trace, binding, stable, deadline, n) && trace(n).start <= deadline && Broken(trace, binding, n)
    case TimedOut(n) =>
      Undecided(trace, binding, stable, deadline, n) && deadline < trace(n).start
  }

  /** The specification leaves no choice: at most one verdict fits a trace. */
  lemma DecidesOnce(trace: Trace, binding: nat, stable: int, deadline: int, v: Verdict, v': Verdict)
    requires Decides(trace, binding, stable, deadline, v) && Decides(trace, binding, stable, deadline, v')
    ensures v == v'
  {
    assert v.at < v'.at ==> trace(v.at).start <= deadline;
    assert v'.at < v.at ==> trace(v'.at).start <= deadline;
  }

  // ----- The loop -----

  /** The open ready run that ends just before poll `i`. */
  ghost predicate Tracks(trace: Trace, binding: nat, i: nat, since: Option<int>, identity: Option<Identity>) {
    && (since.Some? <==> identity.Some?)
    && (identity.Some? <==> i > 0 && Classify(trace(i - 1), binding).IsReady?)
    && (identity.Some? ==> Opened(trace, binding, i, since.value, identity.value))
  }

  ghost predicate Opened(trace: Trace, binding: nat, i: nat, since: int, id: Identity) {
    exists m: nat :: OpenRun(trace, binding, m, i, since, id)
  }

  /** The maximal run of ready polls `m..i`, and when its first probe was taken. */
  ghost predicate OpenRun(trace: Trace, binding: nat, m: nat, i: nat, since: int, id: Identity) {
    && m < i && trace(m).probed == since
    && (forall k: nat | m <= k < i :: Ready(trace, binding, k, id))
    && (m > 0 ==> !Classify(trace(m - 1), binding).IsReady?)
  }

  lemma {:induction false} ProbesInOrder(trace: Trace, started: int, poll: int, m: nat, n: nat)
    requires Clock(trace, started, poll) && poll > 0 && m <= n
    ensures trace(m).probed <= trace(n).probed
    decreases n - m
  {
    if m < n {
      ProbesInOrder(trace, started, poll, m + 1, n);
      assert Ticks(trace, poll, m) && Ticks(trace, poll, m + 1);
    }
  }

  /** No window inside a maximal ready run is longer than the run itself. */
  lemma TooShort(trace: Trace, started: int, poll: int, binding: nat, stable: int, m: nat, n: nat, since: int,
          id: Identity)
    requires Clock(trace, started, poll) && poll > 0
    requires OpenRun(trace, binding, m, n + 1, since, id) && trace(n).probed - since < stable
    ensures !Settles(trace, binding, stable, n)
  {
    forall m': nat, id': Identity ensures !Steady(trace, binding, stable, m', n, id') {
      if Steady(trace, binding, stable, m', n, id') {
        assert m' <= m - 1 ==> Ready(trace, binding, m - 1, id');
        ProbesInOrder(trace, started, poll, m, m');
      }
    }
  }

  /** A ready poll with the run's identity extends the run; the first one opens it. */
  lemma RunGrows(trace: Trace, binding: nat, i: nat, since: Option<int>, identity: Option<Identity>, id: Identity)
    returns (m: nat)
    requires Tracks(trace, binding, i, since, identity) && Ready(trace, binding, i, id)
    requires identity.Some? ==> identity.value == id
    ensures OpenRun(trace, binding, m, i + 1, if identity.Some? then since.value else trace(i).probed, id)
  {
    if identity.Some? {
      m :| OpenRun(trace, binding, m, i, since.value, identity.value);
    } else {
      m := i;
    }
  }

  lemma WaitingSettlesNothing(trace: Trace, binding: nat, stable: int, n: nat)
    requires !Classify(trace(n), binding).IsReady?
    ensures !Settles(trace, binding, stable, n)
  {
    forall m: nat, id: Identity ensures !Steady(trace, binding, stable, m, n, id) {
      assert Steady(trace, binding, stable, m, n, id) ==> Ready(trace, binding, n, id);
    }
  }

  /** One more undecided poll. */
  lemma UndecidedStep(trace: Trace, binding: nat, stable: int, deadline: int, n: nat)
    requires Undecided(trace, binding, stable, deadline, n) && trace(n).start <= deadline
    requires !Broken(trace, binding, n) && !Settles(trace, binding, stable, n)
    ensures Undecided(trace, binding, stable, deadline, n + 1)
  {
    hide Broken, Settles;
  }

  method WaitForConvergence(trace: Trace, started: int, binding: nat, timeout: int, poll: int, stable: int)
    returns (v: Option<Verdict>)
    requires poll > 0 ==> Clock(trace, started, poll)
    ensures v.Some? <==> timeout >= stable >= CONVERGENCE_MILLISECONDS && 0 < poll <= 1000
    ensures v.Some? ==> Decides(trace, binding, stable, started + timeout, v.value)
    ensures v.Some? ==> v.value.at * poll <= timeout + poll
  {
    hide Settles, Clock, Undecided, OpenRun, Classify, Tracks, Broken;
    if !(timeout >= stable >= CONVERGENCE_MILLISECONDS && 0 < poll <= 1000) {
      return None;
    }
    var deadline := started + timeout;
    var since: Option<int> := None;
    var identity: Option<Identity> := None;
    var i: nat := 0;
    ClockAt(trace, started, poll, 0);
    NothingYet(trace, binding, stable, deadline, since, identity);
    while trace(i).start <= deadline
      invariant Undecided(trace, binding, stable, deadline, i)
      invariant Tracks(trace, binding, i, since, identity)
      invariant i * poll <= trace(i).start - started && i * poll <= timeout + poll
      decreases deadline - trace(i).start
    {
      ClockAt(trace, started, poll, i);
      var sample := Classify(trace(i), binding);
      match sample {
        case Rejects =>
          BrokenOrNot(trace, binding, i, since, identity);
          return Some(Failed(i));
        case Waits =>
          BrokenOrNot(trace, binding, i, since, identity);
          WaitingSettlesNothing(trace, binding, stable, i);
          since, identity := None, None;
        case IsReady(id) =>
          BrokenOrNot(trace, binding, i, since, identity);
          if identity.Some? && identity.value != id {
            return Some(Failed(i));
          }
          ghost var m := RunGrows(trace, binding, i, since, identity, id);
          if identity.None? {
            since, identity := Some(trace(i).probed), Some(id);
          }
          if trace(i).probed - since.value >= stable {
            RunSettles(trace, binding, stable, m, i, since.value, id);
            return Some(Converged(i, id));
          }
          TooShort(trace, started, poll, binding, stable, m, i, since.value, id);
      }
      UndecidedStep(trace, binding, stable, deadline, i);
      TracksOn(trace, binding, i, since, identity);
      i := i + 1;
    }
    return Some(TimedOut(i));
  }

  lemma ClockAt(trace: Trace, started: int, poll: int, i: nat)
    requires Clock(trace, started, poll)
    ensures Ticks(trace, poll, i) && started <= trace(0).start
  {
  }

  lemma NothingYet(trace: Trace, binding: nat, stable: int, deadline: int, since: Option<int>,
          identity: Option<Identity>)
    requires since.None? && identity.None?
    ensures Undecided(trace, binding, stable, deadline, 0) && Tracks(trace, binding, 0, since, identity)
  {
  }

  /** The stored identity is that of the poll before, so comparing with it finds every drift. */
  lemma BrokenOrNot(trace: Trace, binding: nat, i: nat, since: Option<int>, identity: Option<Identity>)
    requires Tracks(trace, binding, i, since, identity)
    ensures since.Some? <==> identity.Some?
    ensures
      match Classify(trace(i), binding)
      case Rejects => Broken(trace, binding, i)
      case Waits => !Broken(trace, binding, i)
      case IsReady(id) => (Broken(trace, binding, i) <==> identity.Some? && identity.value != id)
    ensures Classify(trace(i), binding).IsReady? ==> Ready(trace, binding, i, Classify(trace(i), binding).identity)
  {
    if identity.Some? {
      var m: nat :| OpenRun(trace, binding, m, i, since.value, identity.value);
      assert Ready(trace, binding, i - 1, identity.value);
    }
  }

  /** What the loop carries into the next poll. */
  lemma TracksOn(trace: Trace, binding: nat, i: nat, since: Option<int>, identity: Option<Identity>)
    requires since.Some? <==> identity.Some?
    requires identity.Some? <==> Classify(trace(i), binding).IsReady?
    requires identity.Some? ==> Opened(trace, binding, i + 1, since.value, identity.value)
    ensures Tracks(trace, binding, i + 1, since, identity)
  {
  }

  lemma RunSettles(trace: Trace, binding: nat, stable: int, m: nat, n: nat, since: int, id: Identity)
    requires OpenRun(trace, binding, m, n + 1, since, id) && trace(n).probed - since >= stable
    ensures Settles(trace, binding, stable, n) && Ready(trace, binding, n, id)
  {
    assert Steady(trace, binding, stable, m, n, id);
  }
}
