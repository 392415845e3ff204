/** The external-epoch rollover: the old epoch is sealed before the selector names the new one, and the
    selector is there before the drop-in that reads it.  Rollback undoes this in the opposite order.
    Any step may raise or die before, part-way through or after its effect. */
module EpochRollover {

  datatype Seal = Unsealed | PartlySealed | Sealed
  datatype Journal = NoJournal | SaysActivating | SaysActive | SaysRolledBack | SaysFailedBeforeMutation

  /** `dropin` and `loaded` say that the target drop-in is on disk and loaded by systemd. */
  datatype Host = Host(
    seal: Seal, newEpoch: bool, selector: bool, dropin: bool, loaded: bool, running: bool, journal: Journal, receipts: nat)

  datatype Change =
    | OpenJournal | InstallRuntime | StopTelegram | CheckQuiescence | SealOld | PrepareNew | WriteSelector | WriteDropin
    | DaemonReload | StartTelegram | VerifyTarget | RecordActive | WriteReceipt
    | RestoreDropin | RemoveSelector | UnsealOld | VerifyRestored | RecordRolledBack

  const ACTIVATION_SIZE: nat := 13
  const ROLLBACK_SIZE: nat := 8
  const STOP_STEP: nat := 2
  const SEAL_STEP: nat := 4
  const RECEIPT_STEP: nat := 12

  function ActivationStep(i: int): Change {
    match i
    case 0 => OpenJournal
    case 1 => InstallRuntime
    case 2 => StopTelegram
    case 3 => CheckQuiescence
    case 4 => SealOld
    case 5 => PrepareNew
    case 6 => WriteSelector
    case 7 => WriteDropin
    case 8 => DaemonReload
    case 9 => StartTelegram
    case 10 => VerifyTarget
    case 11 => RecordActive
    case _ => WriteReceipt
  }

  function RollbackStep(i: int): Change {
    match i
    case 0 => StopTelegram
    case 1 => RestoreDropin
    case 2 => RemoveSelector
    case 3 => UnsealOld
    case 4 => DaemonReload
    case 5 => StartTelegram
    case 6 => VerifyRestored
    case _ => RecordRolledBack
  }

  /** How much of a step happened. */
  datatype Extent = Before | Partway | Done

  function Complete(h: Host, c: Change): Host {
    match c
    case OpenJournal => h.(journal := SaysActivating)
    case StopTelegram => h.(running := false)
    case SealOld => h.(seal := Sealed)
    case PrepareNew => h.(newEpoch := true)
    case WriteSelector => h.(selector := true)
    case WriteDropin => h.(dropin := true)
    case DaemonReload => h.(loaded := h.dropin)
    case StartTelegram => h.(running := true)
    case RecordActive => h.(journal := SaysActive)
    case WriteReceipt => h.(receipts := h.receipts + 1)
    case RestoreDropin => h.(dropin := false)
    case RemoveSelector => h.(selector := false)
    case UnsealOld => h.(seal := Unsealed)
    case RecordRolledBack => h.(journal := SaysRolledBack)
    case _ => h
  }

  /** Sealing and unsealing go file by file, and the new directory is made before it is owned; the other
      steps take effect at once. */
  function Effect(h: Host, c: Change, x: Extent): Host {
    match x
    case Before => h
    case Done => Complete(h, c)
    case Partway =>
      if c.SealOld? || (c.UnsealOld? && !h.seal.Unsealed?) then h.(seal := PartlySealed)
      else if c.PrepareNew? then h.(newEpoch := true)
      else h
  }

  datatype Cause = Cause(step: nat, extent: Extent)

  /** `Ready` is between runs of the program. */
  datatype Phase =
    | Ready
    | Activating(next: nat)
    | RollingBack(cause: Cause, next: nat)
    | Live
    | Ended(cause: Cause)
    | Abandoned(cause: Cause)
    | Crashed

  datatype State = State(host: Host, phase: Phase)

  datatype Event = Begin | Completes | Raises(extent: Extent) | Dies(extent: Extent)

  /** What `verify_live_prestate` demands. */
  predicate Prestate(h: Host) {
    h.running && !h.selector && !h.newEpoch && !h.dropin && !h.loaded && h.seal.Unsealed?
  }

  /** The mutation flag is set after Telegram has been stopped, the seal flag just before sealing. */
  function Fail(h: Host, cause: Cause): State {
    if cause.step == 0 then State(h, Ended(cause))
    else if cause.step <= STOP_STEP then State(h.(journal := SaysFailedBeforeMutation), Ended(cause))
    else State(h, RollingBack(cause, 0))
  }

  /** Permissions are restored only if sealing had begun. */
  function Undo(h: Host, n: nat, cause: Cause, x: Extent): Host {
    if RollbackStep(n).UnsealOld? && cause.step < SEAL_STEP then h else Effect(h, RollbackStep(n), x)
  }

  function Next(s: State, e: Event): State {
    match s.phase
    case Ready => if e.Begin? && Prestate(s.host) then State(s.host, Activating(0)) else s
    case Activating(n) =>
      if n >= ACTIVATION_SIZE then State(s.host, Live)
      else
        (match e
         case Begin => s
         case Completes => State(Effect(s.host, ActivationStep(n), Done), Activating(n + 1))
         case Raises(x) => Fail(Effect(s.host, ActivationStep(n), x), Cause(n, x))
         case Dies(x) => State(Effect(s.host, ActivationStep(n), x), Crashed))
    case RollingBack(cause, n) =>
      if n >= ROLLBACK_SIZE then State(s.host, Ended(cause))
      else
        (match e
         case Begin => s
         case Completes => State(Undo(s.host, n, cause, Done), RollingBack(cause, n + 1))
         case Raises(x) => State(Undo(s.host, n, cause, x), Abandoned(cause))
         case Dies(x) => State(Undo(s.host, n, cause, x), Crashed))
    case Live => if e.Begin? then State(s.host, Ready) else s
    case Ended(_) => if e.Begin? then State(s.host, Ready) else s
    case Abandoned(_) => if e.Begin? then State(s.host, Ready) else s
    case Crashed => if e.Begin? then State(s.host, Ready) else s
  }

  function Run(s: State, events: seq<Event>): State
    decreases |events|
  {
    if events == [] then s else Run(Next(s, events[0]), events[1..])
  }

  // ----- What holds at every point -----

  predicate IsOld(h: Host) {
    !h.dropin && !h.loaded && !h.selector && h.seal.Unsealed?
  }

  predicate IsTarget(h: Host) {
    h.dropin && h.loaded && h.selector && h.seal.Sealed? && h.newEpoch
  }

  /** The target drop-in needs the selector, the selector needs the sealed old epoch and the new epoch's
      directory, and Telegram runs only on an entirely old or an entirely new configuration. */
  predicate Safe(h: Host) {
    && (h.dropin ==> h.selector)
    && (h.selector ==> h.seal.Sealed? && h.newEpoch)
    && (h.running ==> IsOld(h) || IsTarget(h))
  }

  /** After the first `n` activation steps. */
  predicate ActivatedTo(h: Host, n: nat) {
    && h.running == (n <= 2 || n > 9) && h.seal == (if n > 4 then Sealed else Unsealed)
    && h.newEpoch == (n > 5) && h.selector == (n > 6) && h.dropin == (n > 7) && h.loaded == (n > 8)
    && (n > 11 ==> h.journal.SaysActive?) && (1 <= n <= 11 ==> h.journal.SaysActivating?)
  }

  predicate Restoring(h: Host, cause: Cause, n: nat) {
    && Safe(h)
    && STOP_STEP < cause.step < ACTIVATION_SIZE
    && (1 <= n <= 5 ==> !h.running) && (n >= 2 ==> !h.dropin) && (n >= 3 ==> !h.selector)
    && (n >= 4 ==> h.seal.Unsealed?) && (n >= 5 ==> !h.loaded) && (n >= 6 ==> h.running)
    && (cause.step < SEAL_STEP ==> h.seal.Unsealed?)
    && (cause.step < 5 || cause == Cause(5, Before) ==> !h.newEpoch)
    && (if n >= ROLLBACK_SIZE then h.journal.SaysRolledBack? else h.journal.SaysActive? <==> JournalledActive(cause))
  }

  /** The run was recorded as active before it failed. */
  predicate JournalledActive(cause: Cause) {
    cause.step == RECEIPT_STEP || cause == Cause(11, Done)
  }

  predicate Inv(s: State) {
    && Safe(s.host)
    && match s.phase
       case Activating(n) => n <= ACTIVATION_SIZE && ActivatedTo(s.host, n)
       case RollingBack(cause, n) => n <= ROLLBACK_SIZE && Restoring(s.host, cause, n)
       case Live => ActivatedTo(s.host, ACTIVATION_SIZE)
       case Ended(cause) =>
         if cause.step <= STOP_STEP then
           IsOld(s.host) && !s.host.newEpoch && (s.host.running <==> cause != Cause(STOP_STEP, Done))
         else Restoring(s.host, cause, ROLLBACK_SIZE)
       case _ => true
  }

  lemma NextInv(s: State, e: Event)
    requires Inv(s)
    ensures Inv(Next(s, e))
  {
    match s.phase
    case Activating(n) => ActivationInv(s, e, n);
    case RollingBack(cause, n) => RollbackInv(s, e, cause, n);
    case _ =>
  }

  lemma ActivationInv(s: State, e: Event, n: nat)
    requires Inv(s) && s.phase == Activating(n)
    ensures Inv(Next(s, e))
  {
  }

  lemma RollbackInv(s: State, e: Event, cause: Cause, n: nat)
    requires Inv(s) && s.phase == RollingBack(cause, n)
    ensures Inv(Next(s, e))
  {
  }

  lemma {:induction false} RunInv(s: State, events: seq<Event>)
    requires Inv(s)
    ensures Inv(Run(s, events))
    decreases |events|
  {
    hide Inv, Next;
    if events != [] {
      NextInv(s, events[0]);
      RunInv(Next(s, events[0]), events[1..]);
    }
  }

  /** At every crash point of any number of activations and rollbacks. */
  lemma AlwaysSafe(s: State, events: seq<Event>)
    requires s.phase.Ready? && Safe(s.host)
    ensures Safe(Run(s, events).host)
  {
    RunInv(s, events);
  }

  // ----- One shot -----

  lemma NewEpochStays(s: State, e: Event)
    requires s.host.newEpoch
    ensures Next(s, e).host.newEpoch
    ensures !s.phase.Activating? ==> !Next(s, e).phase.Activating?
    ensures s.phase.Ready? ==> Next(s, e) == s
  {
    hide Complete, ActivationStep, RollbackStep;
    forall c: Change, x: Extent ensures Effect(s.host, c, x).newEpoch {
      EffectKeepsNewEpoch(s.host, c, x);
    }
  }

  lemma EffectKeepsNewEpoch(h: Host, c: Change, x: Extent)
    requires h.newEpoch
    ensures Effect(h, c, x).newEpoch
  {
  }

  /** Once any attempt has created the new epoch's directory, it stays over every run, through rollbacks,
      crashes and further attempts. */
  lemma {:induction false} NewEpochPersists(s: State, events: seq<Event>)
    requires s.host.newEpoch
    ensures Run(s, events).host.newEpoch
    decreases |events|
  {
    hide Next;
    if events != [] {
      NewEpochStays(s, events[0]);
      NewEpochPersists(Next(s, events[0]), events[1..]);
    }
  }

  /** And from any point outside that attempt's own activation, in its rollback, after a crash or at
      rest, no activation ever starts again; at rest nothing changes any more. */
  lemma {:induction false} OneShot(s: State, events: seq<Event>)
    requires s.host.newEpoch && !s.phase.Activating?
    ensures !Run(s, events).phase.Activating? && !(Run(s, events).phase.Live? && !s.phase.Live?)
    ensures s.phase.Ready? ==> Run(s, events) == s
    decreases |events|
  {
    hide Next;
    if events != [] {
      NewEpochStays(s, events[0]);
      NotLiveAgain(s, events[0]);
      OneShot(Next(s, events[0]), events[1..]);
    }
  }

  lemma NotLiveAgain(s: State, e: Event)
    ensures Next(s, e).phase.Live? ==> s.phase.Live? || s.phase.Activating?
  {
    hide Effect, Undo;
  }

  // ----- What the journal and the end states say -----

  /** A run that ends after a rollback has the old configuration back and running; the failed new epoch
      is kept unless the failure came before it was made. */
  lemma EndedIsOld(s: State, events: seq<Event>)
    requires s.phase.Ready? && Safe(s.host) && Run(s, events).phase.Ended?
    ensures
      var s' := Run(s, events);
      && IsOld(s'.host)
      && (s'.host.running <==> s'.phase.cause != Cause(STOP_STEP, Done))
      && (s'.host.newEpoch ==> s'.phase.cause.step >= 5)
  {
    RunInv(s, events);
  }

  function Completions(n: nat): (events: seq<Event>)
    ensures |events| == n
  {
    if n == 0 then [] else [Completes] + Completions(n - 1)
  }

  /** The stop that raises after it took effect: nothing is rolled back, the journal says that nothing
      was mutated, and Telegram stays stopped. */
  lemma FailedBeforeMutationMayBeStopped(s: State)
    requires Inv(s) && s.phase == Activating(STOP_STEP)
    ensures
      var s' := Next(s, Raises(Done));
      s'.phase.Ended? && s'.host.journal.SaysFailedBeforeMutation? && !s'.host.running
  {
  }

  /** A journal that says active while a rollback is under way was written by a run whose receipt failed,
      or whose own record raised late; it stays so if the rollback is then cut short. */
  lemma ActiveJournalMayLie(s: State, events: seq<Event>)
    requires s.phase.Ready? && Safe(s.host)
    ensures
      var s' := Run(s, events);
      s'.phase.RollingBack? && s'.phase.next < ROLLBACK_SIZE ==>
        (s'.host.journal.SaysActive? <==> JournalledActive(s'.phase.cause))
  {
    RunInv(s, events);
  }

  // ----- The program -----

  lemma {:induction false} RunJoined(s: State, a: seq<Event>, b: seq<Event>)
    ensures Run(s, a + b) == Run(Run(s, a), b)
    decreases |a|
  {
    if a == [] {
      assert a + b == b;
    } else {
      assert (a + b)[1..] == a[1..] + b;
      RunJoined(Next(s, a[0]), a[1..], b);
    }
  }

  lemma RunOne(s: State, a: seq<Event>, e: Event)
    ensures Run(s, a + [e]) == Next(Run(s, a), e)
  {
    RunJoined(s, a, [e]);
    assert Run(Next(Run(s, a), e), []) == Next(Run(s, a), e);
  }

  lemma RunNothing(s: State)
    ensures Run(s, []) == s
  {
  }

  /** How one step goes, as `activate` sees it. */
  datatype Decision = Succeeds | Throws(extent: Extent) | Halts(extent: Extent)

  function Seen(d: Decision): Event {
    match d
    case Succeeds => Completes
    case Throws(x) => Raises(x)
    case Halts(x) => Dies(x)
  }

  /** `activate` and `restore_prestate`, with the two flags the program keeps. */
  class Rollover {
    var host: Host

    constructor (host: Host)
      ensures this.host == host
    {
      this.host := host;
    }

    method Activate(decide: nat -> Decision, decideRollback: nat -> Decision)
      returns (end: Phase, ghost trace: seq<Event>)
      modifies this
      ensures Run(State(old(host), Ready), trace) == State(host, end)
      ensures end.Ready? <==> !Prestate(old(host))
      ensures end.Ready? ==> host == old(host)
      ensures !end.Activating? && !end.RollingBack?
      ensures Safe(old(host)) ==> Safe(host)
    {
      hide Effect, ActivationStep, RollbackStep, Safe, Run, Undo;
      ghost var start := State(host, Ready);
      trace := [];
      RunNothing(start);
      if !Prestate(host) {
        return Ready, [];
      }
      RunOne(start, trace, Begin);
      trace := trace + [Begin];
      var mutated := false;
      var permissionsNeeded := false;
      var stage := 0;
      while stage < ACTIVATION_SIZE
        invariant 0 <= stage <= ACTIVATION_SIZE
        invariant mutated == (stage > STOP_STEP) && permissionsNeeded == (stage > SEAL_STEP)
        invariant Run(start, trace) == State(host, Activating(stage))
      {
        if stage == SEAL_STEP {
          permissionsNeeded := true;
        }
        var d := decide(stage);
        RunOne(start, trace, Seen(d));
        trace := trace + [Seen(d)];
        match d {
          case Succeeds =>
            host := Effect(host, ActivationStep(stage), Done);
            if stage == STOP_STEP {
              mutated := true;
            }
            stage := stage + 1;
          case Throws(x) =>
            host := Effect(host, ActivationStep(stage), x);
            end := Ended(Cause(stage, x));
            if mutated {
              ghost var more;
              end, more := RestorePrestate(Cause(stage, x), permissionsNeeded, decideRollback);
              RunJoined(start, trace, more);
              trace := trace + more;
            } else if stage > 0 {
              host := host.(journal := SaysFailedBeforeMutation);
            }
            RunSafe(start, trace);
            return;
          case Halts(x) =>
            host := Effect(host, ActivationStep(stage), x);
            end := Crashed;
            RunSafe(start, trace);
            return;
        }
      }
      RunOne(start, trace, Completes);
      trace := trace + [Completes];
      end := Live;
      RunSafe(start, trace);
    }

    method RestorePrestate(cause: Cause, permissionsNeeded: bool, decide: nat -> Decision)
      returns (end: Phase, ghost trace: seq<Event>)
      requires permissionsNeeded == (cause.step >= SEAL_STEP)
      modifies this
      ensures Run(State(old(host), RollingBack(cause, 0)), trace) == State(host, end)
      ensures end == Ended(cause) || end == Abandoned(cause) || end == Crashed
    {
      hide Effect, Run;
      ghost var start := State(host, RollingBack(cause, 0));
      trace := [];
      RunNothing(start);
      var stage := 0;
      while stage < ROLLBACK_SIZE
        invariant 0 <= stage <= ROLLBACK_SIZE
        invariant Run(start, trace) == State(host, RollingBack(cause, stage))
      {
        var d := decide(stage);
        RunOne(start, trace, Seen(d));
        trace := trace + [Seen(d)];
        var extent := match d case Succeeds => Done case Throws(x) => x case Halts(x) => x;
        if !RollbackStep(stage).UnsealOld? || permissionsNeeded {
          host := Effect(host, RollbackStep(stage), extent);
        }
        if d.Throws? { return Abandoned(cause), trace; }
        if d.Halts? { return Crashed, trace; }
        stage := stage + 1;
      }
      RunOne(start, trace, Completes);
      trace := trace + [Completes];
      end := Ended(cause);
    }
  }

  lemma RunSafe(s: State, events: seq<Event>)
    ensures s.phase.Ready? && Safe(s.host) ==> Safe(Run(s, events).host)
  {
    if s.phase.Ready? && Safe(s.host) {
      AlwaysSafe(s, events);
    }
  }
}
