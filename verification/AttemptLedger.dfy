/** The P01-B attempt ledger: numbered, hash-chained attempt files behind a lock, and the lineage check
    that ties a consumed attempt to the plan it was consumed for. */
module AttemptLedger {
  import opened PhaseFWorld

  const MAX_ATTEMPTS: nat := 2

  // ----- Plans -----

  /** `stable` stands for the shape and projection checks of `_normalized_recovery_prestate`. */
  datatype Prestate = Prestate(attempts: int, anchor: nat, stable: bool, rest: nat)

  datatype PlanBody = PlanBody(bundle: nat, series: nat, nextAttempt: int, executor: nat, anchor: nat,
          prestate: Prestate)
  datatype PlanDigest = PlanDigest(of: PlanBody)
  datatype Plan = Plan(body: PlanBody, digest: PlanDigest)

  // ----- Attempts -----

  datatype AttemptBody = AttemptBody(
    number: nat, bundle: nat, series: nat, strategy: nat, lineage: nat,
    plan: PlanDigest, previous: Option<AttemptDigest>, recordedAt: nat)
  datatype AttemptDigest = AttemptDigest(of: AttemptBody)
  datatype Attempt = Attempt(body: AttemptBody, digest: AttemptDigest)

  /** `recovery` is the attempt the bundle says was spent before it, with the file's own digest;
      `budgeted` stands for the fixed lineage fields. */
  datatype Bundle = Bundle(
    digest: nat, series: nat, strategy: nat, lineage: nat, anchor: nat, recovery: Attempt, budgeted: bool)

  function MakePlan(b: Bundle, prestate: Prestate, executor: nat): Plan {
    var body := PlanBody(b.digest, b.series, prestate.attempts + 1, executor, prestate.anchor, prestate);
    Plan(body, PlanDigest(body))
  }

  /** `attempt_payload`. */
  function Payload(b: Bundle, number: nat, plan: PlanDigest, previous: Option<AttemptDigest>,
          recordedAt: nat): Option<Attempt> {
    if number != b.recovery.body.number + 1 || number != MAX_ATTEMPTS || previous != Some(b.recovery.digest) then None
    else
      var body := AttemptBody(number, b.digest, b.series, b.strategy, b.lineage, plan, previous, recordedAt);
      Some(Attempt(body, AttemptDigest(body)))
  }

  predicate ValidRecovery(b: Bundle, row: Attempt) {
    row == b.recovery && row.body.number == 1 && row.body.previous.None? && row.digest == AttemptDigest(row.body)
  }

  /** `_attempt_rows`: no gap, at most two files, the first is the bundle's recovery attempt and the
      second is what this bundle would have written. */
  function Rows(files: map<nat, Attempt>, b: Bundle): Option<seq<Attempt>> {
    if files.Keys == {} then Some([])
    else if files.Keys == {1} then if ValidRecovery(b, files[1]) then Some([files[1]]) else None
    else if files.Keys == {1, 2} then
      if ValidRecovery(b, files[1])
         && Payload(b, 2, files[2].body.plan, Some(files[1].digest), files[2].body.recordedAt) == Some(files[2])
      then Some([files[1], files[2]]) else None
    else None
  }

  /** The part of `_require_attempt_phase_lineage` common to both phases. */
  predicate StartsFromRecovery(b: Bundle, rows: seq<Attempt>) {
    && b.budgeted && rows != []
    && rows[0].body.number == 1 && rows[0].digest == b.recovery.digest
    && rows[0].body.series == b.series == b.recovery.body.series
    && rows[0].body.bundle == b.recovery.body.bundle && rows[0].body.previous.None?
  }

  predicate PreAttempt(b: Bundle, rows: seq<Attempt>) {
    StartsFromRecovery(b, rows) && |rows| == 1
  }

  /** The POST_ATTEMPT_ROLLBACK phase. */
  predicate PostAttempt(b: Bundle, rows: seq<Attempt>, plan: Plan) {
    && StartsFromRecovery(b, rows)
    && plan.body.bundle == b.digest && plan.body.series == b.series && plan.body.nextAttempt == 2
    && plan.body.prestate.attempts == 1 && plan.body.anchor == plan.body.prestate.anchor == b.anchor
    && plan.digest == PlanDigest(plan.body) && plan.body.prestate.stable
    && |rows| == MAX_ATTEMPTS
    && Payload(b, 2, plan.digest, Some(rows[0].digest), rows[1].body.recordedAt) == Some(rows[1])
  }

  /** What `_consume_attempt` writes, if it does not refuse. */
  function Consumed(files: map<nat, Attempt>, b: Bundle, plan: PlanDigest, now: nat): Option<Attempt> {
    var rows := Rows(files, b);
    if rows.None? || |rows.value| >= MAX_ATTEMPTS || !PreAttempt(b, rows.value) then None
    else Payload(b, |rows.value| + 1, plan, Some(rows.value[|rows.value| - 1].digest), now)
  }

  /** What was consumed is attempt 2 for its plan; the ledger then reads back with it, and nothing more
      can be consumed from that ledger, under any bundle. */
  lemma ConsumedOnce(files: map<nat, Attempt>, b: Bundle, plan: PlanDigest, now: nat)
    requires Consumed(files, b, plan, now).Some?
    ensures
      var spent := Consumed(files, b, plan, now).value;
      var after := files[spent.body.number := spent];
      && spent.body.number == 2 && spent.body.plan == plan && 1 in files && 2 !in files
      && Rows(after, b) == Some([files[1], spent])
      && forall b', plan', now' :: Consumed(after, b', plan', now').None?
  {
    var spent := Consumed(files, b, plan, now).value;
    assert files.Keys == {1};
    assert files[spent.body.number := spent].Keys == {1, 2};
  }

  // ----- The ledger -----

  class Ledger {
    var files: map<nat, Attempt>

    constructor (files: map<nat, Attempt>)
      ensures this.files == files
    {
      this.files := files;
    }

    /** Walks the numbered files, carrying the digest of the one before. */
    method AttemptRows(b: Bundle) returns (rows: Option<seq<Attempt>>)
      ensures rows == Rows(files, b)
    {
      var count := |files.Keys|;
      var expected := Numbers(count);
      Counted(files.Keys);
      if files.Keys != expected || count > MAX_ATTEMPTS {
        return None;
      }
      var read := [];
      var previous: Option<AttemptDigest> := None;
      var number := 1;
      while number <= count
        invariant 1 <= number <= count + 1 && files.Keys == expected
        invariant number == 1 ==> read == [] && previous == None
        invariant number > 1 ==> ValidRecovery(b, files[1])
        invariant number == 2 ==> read == [files[1]] && previous == Some(files[1].digest)
        invariant number == 3 ==> read == [files[1], files[2]]
        invariant number == 3 ==>
                    Payload(b, 2, files[2].body.plan, Some(files[1].digest), files[2].body.recordedAt) == Some(files[2])
      {
        var value := files[number];
        if number == 1 {
          if !ValidRecovery(b, value) {
            return None;
          }
        } else if Payload(b, number, value.body.plan, previous, value.body.recordedAt) != Some(value) {
          return None;
        }
        previous := Some(value.digest);
        read := read + [value];
        number := number + 1;
      }
      return Some(read);
    }

    /** `_consume_attempt`, which runs under the lock. */
    method ConsumeAttempt(b: Bundle, plan: PlanDigest, now: nat) returns (spent: Option<Attempt>)
      modifies this
      ensures spent == Consumed(old(files), b, plan, now)
      ensures spent.Some? <==> Rows(old(files), b).Some? && PreAttempt(b, Rows(old(files), b).value)
      ensures spent.None? ==> files == old(files)
      ensures spent.Some? ==> 2 !in old(files) && files == old(files)[2 := spent.value]
      ensures spent.Some? ==> spent.value.body.number == 2 && spent.value.body.plan == plan
      ensures spent.Some? ==> Rows(files, b) == Some([old(files)[1], spent.value])
    {
      var rows := AttemptRows(b);
      if rows.None? || |rows.value| >= MAX_ATTEMPTS || !PreAttempt(b, rows.value) {
        return None;
      }
      var number := |rows.value| + 1;
      var value := Payload(b, number, plan, Some(rows.value[|rows.value| - 1].digest), now);
      assert files.Keys == {1};
      files := files[number := value.value];
      assert files.Keys == {1, 2};
      var after := AttemptRows(b);
      return value;
    }
  }

  /** The numbers 1..n. */
  function Numbers(n: nat): set<nat> {
    if n == 0 then {} else Numbers(n - 1) + {n}
  }

  lemma Counted(keys: set<nat>)
    ensures |keys| == 1 ==> Numbers(|keys|) == {1}
    ensures |keys| == 2 ==> Numbers(|keys|) == {1, 2}
    ensures keys == {1} ==> |keys| == 1
    ensures keys == {1, 2} ==> |keys| == 2
  {
    assert Numbers(1) == Numbers(0) + {1};
    assert Numbers(2) == Numbers(1) + {2};
  }

  /** What was spent for a plan is accepted as that plan's attempt, and as no other plan's. */
  lemma ConsumedForOnePlan(b: Bundle, prestate: Prestate, executor: nat, recovery: Attempt, spent: Attempt, now: nat,
          other: Plan)
    requires PreAttempt(b, [recovery]) && ValidRecovery(b, recovery)
    requires Payload(b, 2, MakePlan(b, prestate, executor).digest, Some(recovery.digest), now) == Some(spent)
    ensures PostAttempt(b, [recovery, spent], MakePlan(b, prestate, executor)) <==>
            prestate.attempts == 1 && prestate.anchor == b.anchor && prestate.stable
    ensures PostAttempt(b, [recovery, spent], other) ==> other == MakePlan(b, prestate, executor)
  {
  }

  // ----- Any number of activators -----

  datatype Phase = Idle | Locked | Checked(previous: AttemptDigest) | Written(row: Attempt) | Passed(row: Attempt) | Refused

  datatype Activator = Activator(bundle: Bundle, plan: PlanDigest, phase: Phase)

  /** The ledger's files, who holds its lock, and where each activator is. */
  datatype Race = Race(files: map<nat, Attempt>, holder: Option<nat>, activators: seq<Activator>)

  /** One step of activator `who`.  A crash, or any exception, releases the lock wherever it strikes. */
  datatype Turn = Turn(who: nat, now: nat, crash: bool)

  function Move(r: Race, who: nat, phase: Phase): Race
    requires who < |r.activators|
  {
    r.(activators := r.activators[who := r.activators[who].(phase := phase)])
  }

  function Leave(r: Race, who: nat, phase: Phase): Race
    requires who < |r.activators|
  {
    Move(r, who, phase).(holder := if r.holder == Some(who) then None else r.holder)
  }

  function Advance(r: Race, t: Turn): Race {
    if t.who >= |r.activators| then r
    else
      var a := r.activators[t.who];
      if t.crash then (if a.phase.Passed? then r else Leave(r, t.who, Refused))
      else
        match a.phase
        case Idle => if r.holder.None? then Move(r, t.who, Locked).(holder := Some(t.who)) else r
        case Locked =>
          var rows := Rows(r.files, a.bundle);
          if rows.Some? && |rows.value| < MAX_ATTEMPTS && PreAttempt(a.bundle, rows.value)
          then Move(r, t.who, Checked(rows.value[0].digest)) else Leave(r, t.who, Refused)
        case Checked(previous) =>
          var value := Payload(a.bundle, 2, a.plan, Some(previous), t.now);
          // The link that creates the file is exclusive.
          if value.None? || 2 in r.files then Leave(r, t.who, Refused)
          else Move(r, t.who, Written(value.value)).(files := r.files[2 := value.value])
        case Written(row) =>
          var rows := Rows(r.files, a.bundle);
          if rows.Some? && rows.value != [] && rows.value[|rows.value| - 1] == row
          then Leave(r, t.who, Passed(row)) else Leave(r, t.who, Refused)
        case Passed(_) => r
        case Refused => r
  }

  function Play(r: Race, turns: seq<Turn>): Race
    decreases |turns|
  {
    if turns == [] then r else Play(Advance(r, turns[0]), turns[1..])
  }

  predicate HasSpent(p: Phase) {
    p.Written? || p.Passed?
  }

  /** The second attempt file, once it is there, belongs to whoever wrote it. */
  ghost predicate Fair(r: Race) {
    forall i | 0 <= i < |r.activators| :: Accounted(r, i)
  }

  ghost predicate Accounted(r: Race, i: nat)
    requires i < |r.activators|
  {
    var p := r.activators[i].phase;
    HasSpent(p) ==> 2 in r.files && r.files[2] == p.row && p.row.body.number == 2 && p.row.body.plan == r.activators[i].plan
  }

  /** At most one activator spends the attempt. */
  ghost predicate OneSpender(r: Race) {
    forall i, j | 0 <= i < |r.activators| && 0 <= j < |r.activators|
                  && HasSpent(r.activators[i].phase) && HasSpent(r.activators[j].phase) :: i == j
  }

  lemma AdvanceFair(r: Race, t: Turn)
    requires Fair(r) && OneSpender(r)
    ensures Fair(Advance(r, t)) && OneSpender(Advance(r, t))
    ensures forall n | n in r.files :: n in Advance(r, t).files && Advance(r, t).files[n] == r.files[n]
    ensures |Advance(r, t).activators| == |r.activators|
  {
    var r' := Advance(r, t);
    assert |r'.activators| == |r.activators|;
    forall i | 0 <= i < |r'.activators|
      ensures Accounted(r', i)
      ensures HasSpent(r'.activators[i].phase) && !HasSpent(r.activators[i].phase) ==> i == t.who && 2 !in r.files
    {
      assert Accounted(r, i);
    }
    forall i | 0 <= i < |r'.activators| && HasSpent(r.activators[i].phase) ensures 2 in r.files {
      assert Accounted(r, i);
    }
  }

  /** Under any interleaving of any number of activators, with crashes anywhere, at most one passes; the
      ledger only grows; and whoever passed holds attempt 2, bound to its own plan. */
  lemma {:induction false} AtMostOnePasses(r: Race, turns: seq<Turn>)
    requires Fair(r) && OneSpender(r)
    ensures
      var r' := Play(r, turns);
      && |r'.activators| == |r.activators|
      && Fair(r') && OneSpender(r')
      && forall n | n in r.files :: n in r'.files && r'.files[n] == r.files[n]
    decreases |turns|
  {
    if turns != [] {
      AdvanceFair(r, turns[0]);
      AtMostOnePasses(Advance(r, turns[0]), turns[1..]);
    }
  }

  lemma OneActivationEver(r: Race, turns: seq<Turn>)
    requires forall i | 0 <= i < |r.activators| :: r.activators[i].phase.Idle?
    ensures
      var r' := Play(r, turns);
      && (forall i, j | 0 <= i < |r'.activators| && 0 <= j < |r'.activators|
                        && r'.activators[i].phase.Passed? && r'.activators[j].phase.Passed? :: i == j)
      && (forall i | 0 <= i < |r'.activators| && r'.activators[i].phase.Passed? ::
            && r'.activators[i].phase.row.body.number == MAX_ATTEMPTS
            && r'.activators[i].phase.row.body.plan == r'.activators[i].plan)
  {
    AtMostOnePasses(r, turns);
    var r' := Play(r, turns);
    forall i | 0 <= i < |r'.activators| && r'.activators[i].phase.Passed?
      ensures r'.activators[i].phase.row.body.number == MAX_ATTEMPTS
      ensures r'.activators[i].phase.row.body.plan == r'.activators[i].plan
    {
      assert Accounted(r', i);
    }
  }

  // ----- The ledger stays in order -----

  /** The ledger is the one of the beginning, or what one of the activators consumed has been added. */
  ghost predicate AddedOnce(files: map<nat, Attempt>, r: Race) {
    || r.files == files
    || exists i: nat, now :: i < |r.activators| && AddedBy(files, r.activators[i], now, r.files)
  }

  predicate AddedBy(files: map<nat, Attempt>, a: Activator, now: nat, after: map<nat, Attempt>) {
    var spent := Consumed(files, a.bundle, a.plan, now);
    spent.Some? && after == files[2 := spent.value]
  }

  /** Whoever has passed the check would have passed it on the ledger of the beginning. */
  ghost predicate CheckedThen(files: map<nat, Attempt>, r: Race) {
    forall i | 0 <= i < |r.activators| && r.activators[i].phase.Checked? :: CheckedAt(files, r.activators[i])
  }

  predicate CheckedAt(files: map<nat, Attempt>, a: Activator)
    requires a.phase.Checked?
  {
    var rows := Rows(files, a.bundle);
    rows.Some? && |rows.value| == 1 && PreAttempt(a.bundle, rows.value) && rows.value[0].digest == a.phase.previous
  }

  ghost predicate SameActivators(r: Race, r': Race) {
    && |r'.activators| == |r.activators|
    && forall i | 0 <= i < |r.activators| ::
         r'.activators[i].bundle == r.activators[i].bundle && r'.activators[i].plan == r.activators[i].plan
  }

  lemma AdvanceSame(r: Race, t: Turn)
    ensures SameActivators(r, Advance(r, t))
  {
    hide Rows, Payload, PreAttempt;
  }

  lemma AdvanceAdded(files: map<nat, Attempt>, r: Race, t: Turn)
    requires AddedOnce(files, r) && CheckedThen(files, r)
    ensures AddedOnce(files, Advance(r, t))
  {
    hide Rows, Consumed, Advance, CheckedThen;
    var r' := Advance(r, t);
    AdvanceSame(r, t);
    OnlyCheckedWrites(r, t);
    if r'.files != r.files {
      WriteConsumes(files, r, t);
      assert AddedBy(files, r'.activators[t.who], t.now, r'.files);
    } else if r.files != files {
      var i: nat, now :| i < |r.activators| && AddedBy(files, r.activators[i], now, r.files);
      assert AddedBy(files, r'.activators[i], now, r'.files);
    }
  }

  lemma OnlyCheckedWrites(r: Race, t: Turn)
    ensures Advance(r, t).files != r.files ==> t.who < |r.activators| && !t.crash && r.activators[t.who].phase.Checked?
  {
    hide Rows, Payload, PreAttempt;
  }

  lemma AdvanceChecked(files: map<nat, Attempt>, r: Race, t: Turn)
    requires AddedOnce(files, r) && CheckedThen(files, r)
    ensures CheckedThen(files, Advance(r, t))
  {
    hide Rows, PreAttempt, Payload, AddedOnce;
    if t.who < |r.activators| { CheckFindsFirst(files, r, r.activators[t.who]); }
  }

  /** A ledger to which an attempt has been added does not pass the check. */
  lemma CheckFindsFirst(files: map<nat, Attempt>, r: Race, a: Activator)
    requires AddedOnce(files, r)
    ensures
      var rows := Rows(r.files, a.bundle);
      rows.Some? && |rows.value| < MAX_ATTEMPTS && PreAttempt(a.bundle, rows.value) ==> r.files == files && |rows.value| == 1
  {
    if r.files != files {
      assert 2 in r.files.Keys;
    }
  }

  lemma WriteConsumes(files: map<nat, Attempt>, r: Race, t: Turn)
    requires AddedOnce(files, r) && CheckedThen(files, r) && t.who < |r.activators| && !t.crash
    requires r.activators[t.who].phase.Checked?
    ensures Advance(r, t).files != r.files ==>
              r.files == files && AddedBy(files, r.activators[t.who], t.now, Advance(r, t).files)
  {
    var a := r.activators[t.who];
    assert CheckedAt(files, a);
  }

  lemma {:induction false} PlayOrdered(files: map<nat, Attempt>, r: Race, turns: seq<Turn>)
    requires AddedOnce(files, r) && CheckedThen(files, r)
    ensures AddedOnce(files, Play(r, turns)) && SameActivators(r, Play(r, turns))
    decreases |turns|
  {
    hide Advance, AddedOnce, CheckedThen;
    if turns != [] {
      AdvanceSame(r, turns[0]);
      AdvanceAdded(files, r, turns[0]);
      AdvanceChecked(files, r, turns[0]);
      PlayOrdered(files, Advance(r, turns[0]), turns[1..]);
    }
  }

  /** So under any interleaving the ledger either stays as it was, or ends with attempt 2 chained to the
      first, for one activator's plan, and reads back with exactly these two under its bundle.  In
      particular a ledger that was readable for the bundle of all activators stays so, with at most two
      rows. */
  lemma LedgerStaysReadable(r: Race, turns: seq<Turn>, b: Bundle)
    requires forall i | 0 <= i < |r.activators| :: r.activators[i].phase.Idle?
    ensures
      var after := Play(r, turns).files;
      || after == r.files
      || exists i: nat, now :: i < |r.activators| && AddedBy(r.files, r.activators[i], now, after)
                               && Rows(after, r.activators[i].bundle) == Some([r.files[1], after[2]])
    ensures
      Rows(r.files, b).Some? && (forall i | 0 <= i < |r.activators| :: r.activators[i].bundle == b) ==>
        Rows(Play(r, turns).files, b).Some? && |Rows(Play(r, turns).files, b).value| <= MAX_ATTEMPTS
  {
    hide Rows, Consumed, Play;
    PlayOrdered(r.files, r, turns);
    var after := Play(r, turns).files;
    AtMostTwo(after, b);
    if after != r.files {
      var r' := Play(r, turns);
      var i: nat, now :| i < |r'.activators| && AddedBy(r.files, r'.activators[i], now, after);
      assert AddedBy(r.files, r.activators[i], now, after);
      ConsumedOnce(r.files, r.activators[i].bundle, r.activators[i].plan, now);
    }
  }

  lemma AtMostTwo(files: map<nat, Attempt>, b: Bundle)
    ensures Rows(files, b).Some? ==> |Rows(files, b).value| <= MAX_ATTEMPTS
  {
  }
}
