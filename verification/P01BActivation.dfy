/** P01-B activation and its rollback, step by step, with an exception or a crash at any step.

    The marker goes last in and first out.  Telegram is stopped while its configuration and drop-in
    change, and what systemd has loaded is refreshed before it is started again. */
module P01BActivation {
  import opened AttemptLedger

  /** `targetConfig` says the Telegram configuration is the target's, `dropin` that the P01-B drop-in is
      there, `loadedDropin` that systemd has it loaded; `receipts` and `failures` are the attempt
      numbers of the receipts on disk. */
  datatype Host = Host(
    selector: bool, dropin: bool, targetConfig: bool, marker: bool,
    loadedDropin: bool, running: bool, receipts: set<nat>, failures: set<nat>)

  datatype Change =
    | InstallTargets
    | WriteSelector
    | StopTelegram
    | SelectConfig
    | WriteDropin
    | DaemonReload
    | ResumeController
    | StartTelegram
    | VerifyTarget
    | EnableMarker
    | VerifyEnabled
    | WriteReceipt
    | RemoveMarker
    | RestoreConfig
    | RemoveDropin
    | RemoveSelector
    | VerifyRestored

  const ACTIVATION_SIZE: nat := 12
  const ROLLBACK_SIZE: nat := 9

  function ActivationStep(i: int): Change {
    match i
    case 0 => InstallTargets
    case 1 => WriteSelector
    case 2 => StopTelegram
    case 3 => SelectConfig
    case 4 => WriteDropin
    case 5 => DaemonReload
    case 6 => ResumeController
    case 7 => StartTelegram
    case 8 => VerifyTarget
    case 9 => EnableMarker
    case 10 => VerifyEnabled
    case _ => WriteReceipt
  }

  function RollbackStep(i: int): Change {
    match i
    case 0 => RemoveMarker
    case 1 => StopTelegram
    case 2 => RestoreConfig
    case 3 => RemoveDropin
    case 4 => RemoveSelector
    case 5 => DaemonReload
    case 6 => ResumeController
    case 7 => StartTelegram
    case _ => VerifyRestored
  }

  /** `attempt` is the number of the attempt that was consumed. */
  function Effect(h: Host, c: Change, attempt: nat): Host {
    match c
    case WriteSelector => h.(selector := true)
    case StopTelegram => h.(running := false)
    case SelectConfig => h.(targetConfig := true)
    case WriteDropin => h.(dropin := true)
    case DaemonReload => h.(loadedDropin := h.dropin)
    case StartTelegram => h.(running := true)
    case EnableMarker => h.(marker := true)
    case WriteReceipt => h.(receipts := h.receipts + {attempt})
    case RemoveMarker => h.(marker := false)
    case RestoreConfig => h.(targetConfig := false)
    case RemoveDropin => h.(dropin := false)
    case RemoveSelector => h.(selector := false)
    case _ => h
  }

  /** The activation step whose exception started the rollback, and whether it had taken effect. */
  datatype Cause = Cause(step: nat, late: bool)

  datatype Phase =
    | Consuming
    | Refused
    | Activating(next: nat)
    | RollingBack(cause: Cause, next: nat)
    | Active
    | RolledBack(cause: Cause)
    | HardStop(cause: Cause)
    | Crashed

  /** What the attempt is consumed for. */
  datatype Job = Job(bundle: Bundle, plan: PlanDigest, now: nat)

  /** `ledger` are the attempt files; `attempt` means something once the attempt has been consumed. */
  datatype State = State(host: Host, ledger: map<nat, Attempt>, job: Job, attempt: nat, phase: Phase)

  /** A step completes, raises before or after its effect, or the process dies before or after it. */
  datatype Event = Completes | Raises(afterEffect: bool) | Dies(afterEffect: bool)

  /** The mutation flag is set just before the selector is written. */
  predicate Mutated(step: nat) {
    step >= 1
  }

  /** The failure receipt. */
  function Failure(h: Host, attempt: nat): Host {
    h.(failures := h.failures + {attempt})
  }

  function Fail(s: State, h: Host, cause: Cause): State {
    if Mutated(cause.step) then s.(host := h, phase := RollingBack(cause, 0))
    else s.(host := Failure(h, s.attempt), phase := RolledBack(cause))
  }

  /** The attempt is consumed before anything is touched, and outside the handler. */
  function Consume(s: State): State {
    match Consumed(s.ledger, s.job.bundle, s.job.plan, s.job.now)
    case None => s.(phase := Phase.Refused)
    case Some(spent) => s.(ledger := s.ledger[spent.body.number := spent], attempt := spent.body.number,
                           phase := Activating(0))
  }

  function Next(s: State, e: Event): State {
    match s.phase
    case Consuming =>
      (match e
       case Completes => Consume(s)
       case Raises(late) => (if late then Consume(s) else s).(phase := Phase.Refused)
       case Dies(late) => (if late then Consume(s) else s).(phase := Crashed))
    case Activating(n) =>
      if n >= ACTIVATION_SIZE then s.(phase := Phase.Active)
      else
        var after := Effect(s.host, ActivationStep(n), s.attempt);
        (match e
         case Completes => s.(host := after, phase := Activating(n + 1))
         case Raises(late) => Fail(s, if late then after else s.host, Cause(n, late))
         case Dies(late) => s.(host := if late then after else s.host, phase := Crashed))
    case RollingBack(at, n) =>
      if n >= ROLLBACK_SIZE then s.(host := Failure(s.host, s.attempt), phase := RolledBack(at))
      else
        var after := Effect(s.host, RollbackStep(n), s.attempt);
        (match e
         case Completes => s.(host := after, phase := RollingBack(at, n + 1))
         case Raises(late) => s.(host := Failure(if late then after else s.host, s.attempt), phase := HardStop(at))
         case Dies(late) => s.(host := if late then after else s.host, phase := Crashed))
    case _ => s
  }

  function Run(s: State, events: seq<Event>): State
    decreases |events|
  {
    if events == [] then s else Run(Next(s, events[0]), events[1..])
  }

  /** The prestate that `_capture_prestate` insists on. */
  predicate Initial(s: State) {
    && s.phase.Consuming?
    && !s.host.selector && !s.host.dropin && !s.host.targetConfig && !s.host.marker && !s.host.loadedDropin
    && s.host.running && MAX_ATTEMPTS !in s.host.receipts
  }

  // ----- What holds at every point -----

  predicate Ordered(h: Host) {
    && (h.marker ==> h.selector && h.dropin && h.targetConfig)
    && (h.dropin || h.targetConfig ==> h.selector)
  }

  /** A running Telegram has an entirely old or an entirely new configuration, on disk and loaded. */
  predicate Coherent(h: Host) {
    h.running ==> (h.targetConfig <==> h.dropin) && (h.dropin <==> h.loadedDropin)
  }

  predicate Safe(h: Host) {
    Ordered(h) && Coherent(h)
  }

  /** The host after the first `n` activation steps. */
  predicate ActivatedTo(h: Host, n: nat) {
    && h.selector == (n > 1) && h.targetConfig == (n > 3) && h.dropin == (n > 4) && h.loadedDropin == (n > 5)
    && h.running == (n <= 2 || n > 7) && h.marker == (n > 9) && ((MAX_ATTEMPTS in h.receipts) == (n > 11))
  }

  const RECEIPT_STEP: nat := 11

  /** Where a rollback that has done `n` steps can be. */
  predicate Restoring(h: Host, cause: Cause, n: nat) {
    && Safe(h)
    && (n >= 1 ==> !h.marker) && (n >= 2 && n < 8 ==> !h.running) && (n >= 3 ==> !h.targetConfig)
    && (n >= 4 ==> !h.dropin) && (n >= 5 ==> !h.selector) && (n >= 6 ==> !h.loadedDropin) && (n >= 8 ==> h.running)
    && (MAX_ATTEMPTS in h.receipts <==> cause == Cause(RECEIPT_STEP, true))
  }

  /** Only attempt 2 can have been consumed. */
  predicate Numbered(s: State) {
    s.phase.Activating? || s.phase.RollingBack? ==> s.attempt == MAX_ATTEMPTS
  }

  predicate Inv(s: State) {
    && Numbered(s)
    && match s.phase
       case Consuming => ActivatedTo(s.host, 0)
       case Refused => ActivatedTo(s.host, 0)
       case Activating(n) => n <= ACTIVATION_SIZE && ActivatedTo(s.host, n)
       case RollingBack(cause, n) =>
         1 <= cause.step < ACTIVATION_SIZE && n <= ROLLBACK_SIZE && Restoring(s.host, cause, n)
       case Active => ActivatedTo(s.host, ACTIVATION_SIZE)
       case RolledBack(cause) =>
         if Mutated(cause.step) then Restoring(s.host, cause, ROLLBACK_SIZE) else ActivatedTo(s.host, 0)
       case HardStop(cause) => Safe(s.host) && (MAX_ATTEMPTS in s.host.receipts <==> cause == Cause(RECEIPT_STEP, true))
       case Crashed => Safe(s.host)
  }

  lemma ConsumeInv(s: State)
    requires Inv(s) && s.phase.Consuming?
    ensures Inv(Consume(s)) && Consume(s).host == s.host
  {
    hide Consumed;
    var spent := Consumed(s.ledger, s.job.bundle, s.job.plan, s.job.now);
    if spent.Some? { ConsumedOnce(s.ledger, s.job.bundle, s.job.plan, s.job.now); }
  }

  lemma NextInv(s: State, e: Event)
    requires Inv(s)
    ensures Inv(Next(s, e))
  {
    hide Consume;
    if s.phase.Consuming? { ConsumeInv(s); }
  }

  lemma {:induction false} RunInv(s: State, events: seq<Event>)
    requires Inv(s)
    ensures Inv(Run(s, events))
    decreases |events|
  {
    if events != [] {
      NextInv(s, events[0]);
      RunInv(Next(s, events[0]), events[1..]);
    }
  }

  /** At every crash point of activation and rollback: the marker implies all of the target, any part of
      the target implies the selector, and Telegram never runs on a mixture. */
  lemma AlwaysSafe(s: State, events: seq<Event>)
    requires Initial(s)
    ensures Safe(Run(s, events).host)
  {
    RunInv(s, events);
  }

  /** A rollback that ends puts everything back.  An activation receipt is left beside it exactly when
      the step that raised was the receipt itself, after it had been linked: a receipt alone does not
      prove an activation. */
  lemma RolledBackIsPrestate(s: State, events: seq<Event>)
    requires Initial(s) && Run(s, events).phase.RolledBack?
    ensures
      var s' := Run(s, events);
      var h := s'.host;
      && !h.selector && !h.dropin && !h.targetConfig && !h.marker && !h.loadedDropin && h.running
      && (MAX_ATTEMPTS in h.receipts <==> s'.phase.cause == Cause(RECEIPT_STEP, true))
  {
    RunInv(s, events);
  }

  function Completed(n: nat): (events: seq<Event>)
    ensures |events| == n
  {
    if n == 0 then [] else [Completes] + Completed(n - 1)
  }

  /** Undisturbed, a rollback started anywhere reaches its end. */
  lemma {:induction false} RollbackEnds(s: State, k: nat)
    requires Inv(s) && s.phase.RollingBack? && k == ROLLBACK_SIZE + 1 - s.phase.next
    ensures Run(s, Completed(k)).phase == RolledBack(s.phase.cause)
    decreases k
  {
    var s1 := Next(s, Completes);
    assert Completed(k)[1..] == Completed(k - 1);
    NextInv(s, Completes);
    if s.phase.next < ROLLBACK_SIZE {
      RollbackEnds(s1, k - 1);
    } else {
      assert Run(s1, []) == s1;
    }
  }

  /** So from every host one step short of its receipt there is a run that ends rolled back with the
      receipt of an activation on disk. */
  lemma ReceiptMayLie(s: State)
    requires Inv(s) && s.phase == Activating(RECEIPT_STEP)
    ensures
      var s' := Run(s, [Raises(true)] + Completed(ROLLBACK_SIZE + 1));
      s'.phase.RolledBack? && MAX_ATTEMPTS in s'.host.receipts
  {
    var events := [Raises(true)] + Completed(ROLLBACK_SIZE + 1);
    var s1 := Next(s, Raises(true));
    assert events[1..] == Completed(ROLLBACK_SIZE + 1);
    NextInv(s, Raises(true));
    RollbackEnds(s1, ROLLBACK_SIZE + 1);
    RunInv(s1, Completed(ROLLBACK_SIZE + 1));
  }

  // ----- The separate rollback command -----

  /** `rollback()` insists on the receipt of attempt 1. */
  predicate RollbackAdmitted(h: Host) {
    1 in h.receipts
  }

  /** A step of the activation may add the receipt of attempt 2, and no step any other. */
  ghost predicate AddsOnlyTwo(s: State, s': State) {
    && s'.job == s.job
    && (s'.host.receipts == s.host.receipts
        || (s.phase.Activating? && s'.host.receipts == s.host.receipts + {MAX_ATTEMPTS}))
  }

  ghost predicate SpentForPlan(ledger: map<nat, Attempt>, job: Job) {
    var rows := Rows(ledger, job.bundle);
    rows.Some? && |rows.value| == MAX_ATTEMPTS && rows.value[1].body.number == MAX_ATTEMPTS
    && rows.value[1].body.plan == job.plan
  }

  ghost predicate Tied(s: State) {
    Numbered(s) && (s.phase.Activating? || s.phase.RollingBack? ==> SpentForPlan(s.ledger, s.job))
  }

  lemma NextNumbers(s: State, e: Event)
    requires Tied(s)
    ensures Tied(Next(s, e)) && AddsOnlyTwo(s, Next(s, e))
    ensures SpentForPlan(s.ledger, s.job) && !s.phase.Consuming? ==> SpentForPlan(Next(s, e).ledger, Next(s, e).job)
  {
    hide SpentForPlan, Consume, Effect, ActivationStep, RollbackStep;
    match s.phase
    case Consuming => ConsumeTied(s);
    case Activating(n) => EffectReceipts(s.host, ActivationStep(n), s.attempt);
    case RollingBack(_, n) =>
      EffectReceipts(s.host, RollbackStep(n), s.attempt);
      NoReceipt(n);
    case _ =>
  }

  lemma EffectReceipts(h: Host, c: Change, attempt: nat)
    ensures Effect(h, c, attempt).receipts == if c.WriteReceipt? then h.receipts + {attempt} else h.receipts
  {
  }

  lemma NoReceipt(n: nat)
    ensures !RollbackStep(n).WriteReceipt?
  {
  }

  lemma ConsumeTied(s: State)
    ensures
      var s' := Consume(s);
      s'.host == s.host && s'.job == s.job
      && (s'.phase.Activating? ==> s'.attempt == MAX_ATTEMPTS && SpentForPlan(s'.ledger, s'.job))
      && (s'.phase.Activating? || s'.phase.Refused?)
  {
    hide Consumed, Rows;
    if Consumed(s.ledger, s.job.bundle, s.job.plan, s.job.now).Some? {
      ConsumedOnce(s.ledger, s.job.bundle, s.job.plan, s.job.now);
    }
  }

  /** Over every run, from every ledger and host: a receipt that is added is that of attempt 2, which the
      ledger then holds for this plan.  So the rollback command refuses after every run, unless the
      receipt of attempt 1 had been there before. */
  lemma RollbackNeverAdmitted(s: State, events: seq<Event>)
    requires s.phase.Consuming?
    ensures
      var s' := Run(s, events);
      && (RollbackAdmitted(s'.host) <==> RollbackAdmitted(s.host))
      && (s'.host.receipts != s.host.receipts ==>
            s'.host.receipts == s.host.receipts + {MAX_ATTEMPTS} && SpentForPlan(s'.ledger, s'.job))
  {
    OnlyAttemptTwo(s, events);
  }

  lemma {:induction false} OnlyAttemptTwo(s: State, events: seq<Event>)
    requires Tied(s)
    ensures
      var s' := Run(s, events);
      && s'.job == s.job
      && (s'.host.receipts == s.host.receipts
          || (s'.host.receipts == s.host.receipts + {MAX_ATTEMPTS} && SpentForPlan(s'.ledger, s'.job)))
      && (SpentForPlan(s.ledger, s.job) && !s.phase.Consuming? ==> SpentForPlan(s'.ledger, s'.job))
    decreases |events|
  {
    hide Next, SpentForPlan;
    if events != [] {
      NextNumbers(s, events[0]);
      LeavesConsuming(s, events[0]);
      OnlyAttemptTwo(Next(s, events[0]), events[1..]);
    }
  }

  lemma LeavesConsuming(s: State, e: Event)
    ensures !Next(s, e).phase.Consuming?
  {
  }

  /** Once an attempt has been consumed, a second activation is refused, whatever bundle and plan it is
      for. */
  lemma SecondIsRefused(s: State, events: seq<Event>, job: Job, more: seq<Event>)
    requires s.phase.Consuming? && Consume(s).phase.Activating?
    requires events != [] && (events[0].Completes? || events[0].afterEffect)
    ensures
      var again := Run(s, events).(job := job, phase := Consuming);
      Run(again, more).host == again.host && Run(again, more).ledger == again.ledger
  {
    hide Consumed, Effect;
    ConsumedOnce(s.ledger, s.job.bundle, s.job.plan, s.job.now);
    var s1 := Next(s, events[0]);
    LeavesConsuming(s, events[0]);
    LedgerStays(s1, events[1..]);
    var again := Run(s, events).(job := job, phase := Consuming);
    assert Consumed(again.ledger, job.bundle, job.plan, job.now).None?;
    Nowhere(again, more);
  }

  lemma {:induction false} LedgerStays(s: State, events: seq<Event>)
    requires !s.phase.Consuming?
    ensures Run(s, events).ledger == s.ledger
    decreases |events|
  {
    hide Effect;
    if events != [] {
      LeavesConsuming(s, events[0]);
      LedgerStays(Next(s, events[0]), events[1..]);
    }
  }

  lemma {:induction false} Nowhere(s: State, events: seq<Event>)
    requires s.phase.Refused? || s.phase.Crashed?
             || (s.phase.Consuming? && Consumed(s.ledger, s.job.bundle, s.job.plan, s.job.now).None?)
    ensures Run(s, events).host == s.host && Run(s, events).ledger == s.ledger
    decreases |events|
  {
    hide Consumed, Effect;
    if events != [] { Nowhere(Next(s, events[0]), events[1..]); }
  }

  // ----- The program -----

  lemma {:induction false} RunJoined(s: State, a: seq<Event>, b: seq<Event>)
    ensures Run(s, a + b) == Run(Run(s, a), b)
    decreases |a|
  {
    if a == [] {
      assert a + b == b;
    } else {
      assert (a + b)[1..] == a[1..] + b;
      RunJoined(Next(s, a[0]), a[1..], b);
    }
  }

  lemma RunOne(s: State, a: seq<Event>, e: Event)
    ensures Run(s, a + [e]) == Next(Run(s, a), e)
  {
    RunJoined(s, a, [e]);
    assert Run(Next(Run(s, a), e), []) == Next(Run(s, a), e);
  }

  /** `activate` and `_restore_prestate`.  `decide` says how each step goes; the methods take the path
      through the step machine that this determines, with the flag the program itself keeps. */
  class Activator {
    var host: Host
    const ledger: Ledger
    const job: Job
    var attempt: nat

    ghost function At(phase: Phase): State
      reads this, ledger
    {
      State(host, ledger.files, job, attempt, phase)
    }

    constructor (host: Host, ledger: Ledger, job: Job)
      ensures this.host == host && this.ledger == ledger && this.job == job
    {
      this.host := host;
      this.ledger := ledger;
      this.job := job;
      this.attempt := 0;
    }

    /** Consumes the attempt, which may raise or die before or after its effect, and goes on with its
        number. */
    method Activate(consuming: Event, decide: nat -> Event, decideRollback: nat -> Event)
      returns (end: Phase, ghost trace: seq<Event>)
      modifies this, ledger
      ensures Run(old(At(Consuming)), trace) == At(end)
      ensures !end.Consuming? && !end.Activating? && !end.RollingBack?
      ensures Initial(old(At(Consuming))) ==> Safe(host)
      ensures RollbackAdmitted(host) <==> RollbackAdmitted(old(host))
    {
      hide Run, Safe, Consumed, RollbackAdmitted;
      ghost var start := At(Consuming);
      trace := [consuming];
      RunNothing(start);
      RunOne(start, [], consuming);
      assert [] + [consuming] == trace;
      end := if consuming.Dies? then Crashed else Phase.Refused;
      if consuming.Completes? || consuming.afterEffect {
        var spent := ledger.ConsumeAttempt(job.bundle, job.plan, job.now);
        if spent.Some? {
          attempt := spent.value.body.number;
          if consuming.Completes? {
            ghost var more;
            end, more := Proceed(decide, decideRollback);
            RunJoined(start, trace, more);
            trace := trace + more;
          }
        }
      }
      RunSafe(start, trace);
      RollbackNeverAdmitted(start, trace);
    }

    /** The twelve steps, with the program's own mutation flag, and the handler. */
    method Proceed(decide: nat -> Event, decideRollback: nat -> Event) returns (end: Phase, ghost trace: seq<Event>)
      modifies this`host
      ensures Run(old(At(Activating(0))), trace) == At(end)
      ensures !end.Consuming? && !end.Activating? && !end.RollingBack?
    {
      hide Effect, ActivationStep, RollbackStep, Run;
      ghost var start := At(Activating(0));
      var liveMutated := false;
      trace := [];
      RunNothing(start);
      var stage := 0;
      while stage < ACTIVATION_SIZE
        invariant 0 <= stage <= ACTIVATION_SIZE && liveMutated == (stage > 1)
        invariant Run(start, trace) == At(Activating(stage))
      {
        if stage == 1 {
          liveMutated := true;
        }
        var e := decide(stage);
        RunOne(start, trace, e);
        trace := trace + [e];
        match e {
          case Completes =>
            host := Effect(host, ActivationStep(stage), attempt);
            stage := stage + 1;
          case Raises(late) =>
            if late {
              host := Effect(host, ActivationStep(stage), attempt);
            }
            if liveMutated {
              ghost var more;
              end, more := RestorePrestate(Cause(stage, late), decideRollback);
              RunJoined(start, trace, more);
              trace := trace + more;
            } else {
              host := Failure(host, attempt);
              end := RolledBack(Cause(stage, late));
            }
            return;
          case Dies(late) =>
            if late {
              host := Effect(host, ActivationStep(stage), attempt);
            }
            return Crashed, trace;
        }
      }
      RunOne(start, trace, Completes);
      trace := trace + [Completes];
      end := Phase.Active;
    }

    method RestorePrestate(cause: Cause, decide: nat -> Event) returns (end: Phase, ghost trace: seq<Event>)
      modifies this`host
      ensures Run(old(At(RollingBack(cause, 0))), trace) == At(end)
      ensures end == RolledBack(cause) || end == HardStop(cause) || end == Crashed
    {
      hide Effect, RollbackStep, Run;
      ghost var start := At(RollingBack(cause, 0));
      trace := [];
      RunNothing(start);
      var stage := 0;
      while stage < ROLLBACK_SIZE
        invariant 0 <= stage <= ROLLBACK_SIZE
        invariant Run(start, trace) == At(RollingBack(cause, stage))
      {
        var e := decide(stage);
        RunOne(start, trace, e);
        trace := trace + [e];
        match e {
          case Completes =>
            host := Effect(host, RollbackStep(stage), attempt);
            stage := stage + 1;
          case Raises(late) =>
            if late {
              host := Effect(host, RollbackStep(stage), attempt);
            }
            host := Failure(host, attempt);
            return HardStop(cause), trace;
          case Dies(late) =>
            if late {
              host := Effect(host, RollbackStep(stage), attempt);
            }
            return Crashed, trace;
        }
      }
      RunOne(start, trace, Completes);
      trace := trace + [Completes];
      host := Failure(host, attempt);
      end := RolledBack(cause);
    }
  }

  lemma RunNothing(s: State)
    ensures Run(s, []) == s
  {
  }

  lemma RunSafe(s: State, events: seq<Event>)
    ensures Initial(s) ==> Safe(Run(s, events).host)
  {
    if Initial(s) {
      AlwaysSafe(s, events);
    }
  }
}
