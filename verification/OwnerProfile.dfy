/** The owner-profile activators: a set of files replaced under a pending journal, with a snapshot to go
    back to.  The write activator has a commit point, the read activator has none. */
module OwnerProfile {
  import opened PhaseFWorld

  type Files = seq<FileState>

  // ----- Restoring a set of files -----

  /** Neither what was there nor what the activation puts there; only contents are compared. */
  predicate Drifted(current: FileState, candidate: FileState, snapshot: FileState) {
    && current.Present?
    && !(candidate.Present? && current.payload == candidate.payload)
    && !(snapshot.Present? && current.payload == snapshot.payload)
  }

  predicate NoDrift(files: Files, candidates: Files, snapshots: Files)
    requires |files| == |candidates| == |snapshots|
  {
    forall i | 0 <= i < |files| :: !Drifted(files[i], candidates[i], snapshots[i])
  }

  class Directory {
    var files: Files

    constructor (files: Files)
      ensures this.files == files
    {
      this.files := files;
    }

    /** `_restore_files` and the loop of `_rollback`: path by path, checking for drift before touching
        it.  `budget` is how many paths are restored before a call raises. */
    method RestoreFiles(candidates: Files, snapshots: Files, budget: nat) returns (restored: nat)
      requires |files| == |candidates| == |snapshots|
      modifies this
      ensures |files| == |old(files)| && restored <= |files|
      ensures files == snapshots[..restored] + old(files)[restored..]
      ensures restored == |files| <==> NoDrift(old(files), candidates, snapshots) && budget >= |files|
      ensures forall i | 0 <= i < |files| && Drifted(old(files)[i], candidates[i], snapshots[i]) :: files[i] == old(files)[i]
    {
      hide Drifted;
      restored := 0;
      while restored < |files|
        invariant 0 <= restored <= |files| == |old(files)| && restored <= budget
        invariant forall i | 0 <= i < restored :: files[i] == snapshots[i]
        invariant forall i | restored <= i < |files| :: files[i] == old(files)[i]
        invariant forall i | 0 <= i < restored :: !Drifted(old(files)[i], candidates[i], snapshots[i])
      {
        if Drifted(files[restored], candidates[restored], snapshots[restored]) || restored == budget {
          return;
        }
        files := files[restored := snapshots[restored]];
        restored := restored + 1;
      }
    }
  }

  /** A restore that was cut short can be run again: it then ends with every path equal to its snapshot,
      if nothing had drifted when it was first run. */
  lemma RestoreIsResumable(files: Files, candidates: Files, snapshots: Files, restored: nat)
    requires |files| == |candidates| == |snapshots| && restored <= |files|
    requires NoDrift(files, candidates, snapshots)
    ensures NoDrift(snapshots[..restored] + files[restored..], candidates, snapshots)
  {
    var partial := snapshots[..restored] + files[restored..];
    forall i | 0 <= i < |partial| ensures !Drifted(partial[i], candidates[i], snapshots[i]) {
      assert !Drifted(files[i], candidates[i], snapshots[i]);
    }
  }

  // ----- The activation as a transaction -----

  /** One call of `activate`: the name of its backup, what it found and what it installs. */
  datatype Session = Session(id: nat, candidates: Files, snapshots: Files)

  datatype Phase =
    | Idle
    | Begun
    | Journaled
    | Writing(done: nat)
    | Committing
    | Committed
    | Restoring(done: nat, cause: Cause)

  /** What sent a session into its handler: where the exception came, and whether after its effect. */
  datatype Cause = Cause(stage: Stage, late: bool)

  datatype Stage = AtPreparation | AtFiles | AtReceipt | AtRemoval

  /** A session has ended once its journal is gone. */
  datatype Ending = Ending(session: Session, outcome: Outcome)

  datatype Outcome = Completed | RolledBack(cause: Cause)

  /** `receipts` maps a backup name to the files its receipt vouches for; `used` are the backups that
      exist.  `generations` is the history of file sets that were in place when a session ended cleanly
      with its candidates; it starts with the files there at first.  `endings` is the history of the
      sessions that have ended. */
  datatype State = State(
    files: Files, journal: bool, receipts: map<nat, Files>, used: set<nat>, session: Session, phase: Phase,
    generations: seq<Files>, endings: seq<Ending>)

  /** The two activators: write has a commit point and never replaces a receipt, read has neither. */
  datatype Variant = WriteActivator | ReadActivator

  /** `late` says that the step's effect had happened.  `Exception` is what the handlers catch; a `Crash`
      is not caught. */
  datatype Event =
    | Begin(id: nat, candidates: Files)
    | Completes
    | Exception(late: bool)
    | Crash(late: bool)

  function Last(s: State): Files
    requires s.generations != []
  {
    s.generations[|s.generations| - 1]
  }

  /** The journal is refused before anything else happens; the read activator also refuses a backup that
      exists. */
  function BeginStep(v: Variant, s: State, id: nat, candidates: Files): State {
    if s.journal || |candidates| != |s.files| || (v.ReadActivator? && id in s.used) then s
    else s.(session := Session(id, candidates, s.files), used := s.used + {id}, phase := Begun)
  }

  /** The journal is removed. */
  function Ended(s: State, outcome: Outcome): State {
    s.(journal := false, phase := Idle, endings := s.endings + [Ending(s.session, outcome)])
  }

  /** The step's effect, and the phase it leads to. */
  function Effect(v: Variant, s: State): State {
    match s.phase
    case Idle => s
    case Begun => s.(journal := true, phase := Journaled)
    case Journaled => s.(phase := Writing(0))
    case Writing(d) =>
      if d < |s.files| && d < |s.session.candidates|
      then s.(files := s.files[d := s.session.candidates[d]], phase := Writing(d + 1))
      else s.(phase := Committing)
    case Committing =>
      s.(receipts := (if v.ReadActivator? then map[] else s.receipts)[s.session.id := s.session.candidates], phase := Committed)
    case Committed => Ended(s.(generations := s.generations + [s.session.candidates]), Completed)
    case Restoring(d, cause) =>
      if d < |s.files| && d < |s.session.snapshots|
      then s.(files := s.files[d := s.session.snapshots[d]], phase := Restoring(d + 1, cause))
      else Ended(s, RolledBack(cause))
  }

  /** A step that raises by itself: a receipt that exists, a path that drifted. */
  predicate Refuses(v: Variant, s: State) {
    || (v.WriteActivator? && s.phase.Committing? && s.session.id in s.receipts)
    || (s.phase.Restoring? && s.phase.done < |s.files| && s.phase.done < |s.session.candidates|
        && s.phase.done < |s.session.snapshots|
        && Drifted(s.files[s.phase.done], s.session.candidates[s.phase.done], s.session.snapshots[s.phase.done]))
  }

  /** The exception handlers.  Unlinking the journal either happened or did not, so an exception there is
      an early one. */
  function Caught(v: Variant, s: State, late: bool): State {
    var after := if late && !s.phase.Committed? && !(s.phase.Restoring? && s.phase.done >= |s.files|) then Effect(v, s) else s;
    match s.phase
    case Idle => s
    case Begun => after.(phase := Idle)
    case Journaled =>
      after.(phase := Restoring(if v.ReadActivator? then 0 else |s.files|, Cause(AtPreparation, late)))
    case Writing(_) => after.(phase := Restoring(0, Cause(AtFiles, late)))
    case Committing => after.(phase := if v.WriteActivator? then Idle else Restoring(0, Cause(AtReceipt, late)))
    case Committed => after.(phase := if v.WriteActivator? then Idle else Restoring(0, Cause(AtRemoval, late)))
    case Restoring(_, _) => after.(phase := Idle)
  }

  function Next(v: Variant, s: State, e: Event): State {
    match e
    case Begin(id, candidates) => if s.phase.Idle? then BeginStep(v, s, id, candidates) else s
    case Completes => if Refuses(v, s) then Caught(v, s, false) else Effect(v, s)
    case Exception(late) => Caught(v, s, late && !Refuses(v, s))
    case Crash(late) => (if late && !Refuses(v, s) then Effect(v, s) else s).(phase := Idle)
  }

  function Run(v: Variant, s: State, events: seq<Event>): State
    decreases |events|
  {
    if events == [] then s else Run(v, Next(v, s, events[0]), events[1..])
  }

  // ----- The invariant -----

  /** Every path holds what was there or what the session puts there. */
  ghost predicate EitherSide(s: State) {
    && |s.session.candidates| == |s.session.snapshots| == |s.files|
    && forall i | 0 <= i < |s.files| :: s.files[i] == s.session.candidates[i] || s.files[i] == s.session.snapshots[i]
  }

  ghost predicate Inv(v: Variant, s: State) {
    && s.generations != [] && |Last(s)| == |s.files|
    && (s.journal || !s.phase.Idle? ==> EitherSide(s))
    && (s.journal || !s.phase.Idle? ==> s.session.snapshots == Last(s))
    && (!s.journal ==> s.files == Last(s) && (s.phase.Idle? || s.phase.Begun?))
    && match s.phase
       case Idle => true
       case Begun => !s.journal
       case Journaled => s.files == s.session.snapshots
       case Writing(d) => d <= |s.files| && s.files == s.session.candidates[..d] + s.session.snapshots[d..]
       case Committing => s.files == s.session.candidates
       case Committed =>
         s.files == s.session.candidates && s.session.id in s.receipts && s.receipts[s.session.id] == s.session.candidates
       case Restoring(d, _) => d <= |s.files| && (forall i | 0 <= i < d :: s.files[i] == s.session.snapshots[i])
  }

  lemma EffectInv(v: Variant, s: State)
    requires Inv(v, s)
    ensures
      var s' := Effect(v, s);
      && Inv(v, s') && |s'.files| == |s.files| && s'.session == s.session
      && (s.journal || !s.phase.Idle? ==> EitherSide(s'))
  {
    match s.phase
    case Writing(d) => WritingInv(v, s, d);
    case Restoring(d, _) => RestoringInv(v, s, d);
    case _ =>
  }

  lemma WritingInv(v: Variant, s: State, d: nat)
    requires Inv(v, s) && s.phase == Writing(d)
    ensures Inv(v, Effect(v, s)) && EitherSide(Effect(v, s))
  {
    if d < |s.files| {
      assert Effect(v, s).files == s.session.candidates[..d + 1] + s.session.snapshots[d + 1..];
    } else {
      assert s.files == s.session.candidates;
    }
  }

  lemma RestoringInv(v: Variant, s: State, d: nat)
    requires Inv(v, s) && s.phase.Restoring? && s.phase.done == d
    ensures Inv(v, Effect(v, s)) && EitherSide(Effect(v, s))
  {
    if d >= |s.files| {
      assert s.files == s.session.snapshots;
    }
  }

  lemma CaughtInv(v: Variant, s: State, late: bool)
    requires Inv(v, s)
    ensures Inv(v, Caught(v, s, late))
  {
    hide Effect;
    EffectInv(v, s);
    if !s.phase.Committed? && !(s.phase.Restoring? && s.phase.done >= |s.files|) { CaughtJournal(v, s); }
    if s.phase.Journaled? { assert s.files == s.session.snapshots; }
  }

  lemma CaughtJournal(v: Variant, s: State)
    requires Inv(v, s) && !s.phase.Committed? && !(s.phase.Restoring? && s.phase.done >= |s.files|)
    ensures Effect(v, s).journal == (s.journal || s.phase.Begun?) && Effect(v, s).generations == s.generations
    ensures s.phase.Journaled? ==> Effect(v, s).files == s.files
  {
  }

  lemma NextInv(v: Variant, s: State, e: Event)
    requires Inv(v, s)
    ensures Inv(v, Next(v, s, e))
  {
    hide Caught;
    match e
    case Begin(_, _) =>
    case Completes => if Refuses(v, s) { CaughtInv(v, s, false); } else { EffectInv(v, s); }
    case Exception(late) => CaughtInv(v, s, late && !Refuses(v, s));
    case Crash(late) => EffectInv(v, s);
  }

  lemma {:induction false} RunInv(v: Variant, s: State, events: seq<Event>)
    requires Inv(v, s)
    ensures Inv(v, Run(v, s, events))
    decreases |events|
  {
    hide Inv, Next;
    if events != [] {
      NextInv(v, s, events[0]);
      RunInv(v, Next(v, s, events[0]), events[1..]);
    }
  }

  // ----- Crash atomicity -----

  predicate Fresh(s: State) {
    s.phase.Idle? && !s.journal && s.generations == [s.files] && s.endings == []
  }

  /** Over any sequence of activations, each cut at any step: whenever no journal exists the files are
      exactly one generation, the newest; while one exists every path is on one of its two sides. */
  lemma CrashAtomic(v: Variant, s: State, events: seq<Event>)
    requires Fresh(s)
    ensures
      var s' := Run(v, s, events);
      && s'.generations != []
      && (!s'.journal ==> s'.files == Last(s'))
      && (s'.journal ==> EitherSide(s') && s'.session.snapshots == Last(s'))
  {
    RunInv(v, s, events);
  }

  function Offered(events: seq<Event>): set<Files> {
    if events == [] then {}
    else (if events[0].Begin? then {events[0].candidates} else {}) + Offered(events[1..])
  }

  ghost predicate Known(s: State, known: set<Files>) {
    && (forall g | g in s.generations :: g in known)
    && (s.phase.Idle? || s.session.candidates in known)
  }

  lemma NextKnown(v: Variant, s: State, e: Event, known: set<Files>)
    requires Known(s, known)
    ensures Known(Next(v, s, e), known + (if e.Begin? then {e.candidates} else {}))
  {
  }

  /** A generation is what was there at first or what some activation was asked to install, whole. */
  lemma {:induction false} GenerationsAreOffered(v: Variant, s: State, events: seq<Event>, known: set<Files>)
    requires Known(s, known)
    ensures Known(Run(v, s, events), known + Offered(events))
    decreases |events|
  {
    hide Next;
    if events != [] {
      var e := events[0];
      var known' := known + (if e.Begin? then {e.candidates} else {});
      NextKnown(v, s, e, known);
      GenerationsAreOffered(v, Next(v, s, e), events[1..], known');
      assert known' + Offered(events[1..]) == known + Offered(events);
    }
  }

  /** A pending journal keeps every later activation from changing anything. */
  lemma {:induction false} PendingJournalBlocks(v: Variant, s: State, events: seq<Event>)
    requires s.phase.Idle? && s.journal
    ensures Run(v, s, events) == s
    decreases |events|
  {
    if events != [] {
      assert Next(v, s, events[0]) == s;
      PendingJournalBlocks(v, s, events[1..]);
    }
  }

  // ----- The commit point -----

  predicate PastCommit(p: Phase) {
    p.Committing? || p.Committed? || p.Idle?
  }

  /** The write activator never rolls back once it has begun to write its receipt: whatever happens, the
      files stay as the receipt says until another activation begins. */
  lemma {:induction false} CommitPoint(s: State, events: seq<Event>)
    requires PastCommit(s.phase) && forall e | e in events :: !e.Begin?
    ensures
      var s' := Run(WriteActivator, s, events);
      s'.files == s.files && PastCommit(s'.phase)
    decreases |events|
  {
    if events != [] {
      assert events[0] in events;
      CommitPoint(Next(WriteActivator, s, events[0]), events[1..]);
    }
  }

  /** The write activator never replaces a receipt, and a receipt it adds vouches for the files that are
      in place at that moment. */
  lemma ReceiptsAreKept(s: State, e: Event)
    requires Inv(WriteActivator, s)
    ensures
      var s' := Next(WriteActivator, s, e);
      && (forall id | id in s.receipts :: id in s'.receipts && s'.receipts[id] == s.receipts[id])
      && (forall id | id in s'.receipts && id !in s.receipts ::
            id == s.session.id && s'.receipts[id] == s'.files && PastCommit(s'.phase))
  {
  }

  lemma {:induction false} ReceiptsSurvive(s: State, events: seq<Event>)
    requires Inv(WriteActivator, s)
    ensures
      var s' := Run(WriteActivator, s, events);
      forall id | id in s.receipts :: id in s'.receipts && s'.receipts[id] == s.receipts[id]
    decreases |events|
  {
    hide Inv, Next;
    if events != [] {
      ReceiptsAreKept(s, events[0]);
      NextInv(WriteActivator, s, events[0]);
      ReceiptsSurvive(Next(WriteActivator, s, events[0]), events[1..]);
    }
  }

  function Completions(n: nat): (events: seq<Event>)
    ensures |events| == n
  {
    if n == 0 then [] else [Completes] + Completions(n - 1)
  }

  /** An undisturbed rollback ends with the snapshot and without a journal. */
  lemma {:induction false} RollbackEnds(v: Variant, s: State, k: nat)
    requires Inv(v, s) && s.phase.Restoring? && k == |s.files| + 1 - s.phase.done
    ensures
      var s' := Run(v, s, Completions(k));
      && s'.phase.Idle? && !s'.journal && s'.files == s.session.snapshots
      && s'.receipts == s.receipts && s'.session == s.session
      && s'.endings == s.endings + [Ending(s.session, RolledBack(s.phase.cause))]
    decreases k
  {
    var s1 := Next(v, s, Completes);
    assert Completions(k)[1..] == Completions(k - 1);
    NoDriftHere(v, s);
    EffectInv(v, s);
    if s.phase.done < |s.files| {
      RollbackEnds(v, s1, k - 1);
    } else {
      assert s.files == s.session.snapshots;
      assert Run(v, s1, []) == s1;
    }
  }

  /** Without interference from outside nothing drifts. */
  lemma NoDriftHere(v: Variant, s: State)
    requires Inv(v, s) && s.phase.Restoring?
    ensures !Refuses(v, s)
  {
  }

  // ----- What a receipt of the read activator says -----

  /** The session's receipt has been written.  The read activator has no commit point, so it may still be
      rolled back after that. */
  predicate Issued(outcome: Outcome) {
    outcome.Completed? || (outcome.cause.stage.AtReceipt? && outcome.cause.late) || outcome.cause.stage.AtRemoval?
  }

  /** The files a session left. */
  function Left(e: Ending): Files {
    if e.outcome.Completed? then e.session.candidates else e.session.snapshots
  }

  function InPlace(endings: seq<Ending>, first: Files): Files {
    if endings == [] then first else Left(endings[|endings| - 1])
  }

  /** Each session began with what the one before it left. */
  ghost predicate Chained(endings: seq<Ending>, first: Files) {
    forall i | 0 <= i < |endings| :: endings[i].session.snapshots == InPlace(endings[..i], first)
  }

  predicate LastIssuer(endings: seq<Ending>, k: nat) {
    k < |endings| && Issued(endings[k].outcome) && forall j | k < j < |endings| :: !Issued(endings[j].outcome)
  }

  /** There is one receipt file. */
  function Receipts(endings: seq<Ending>, first: map<nat, Files>): map<nat, Files> {
    if endings == [] then first
    else
      var e := endings[|endings| - 1];
      if Issued(e.outcome) then map[e.session.id := e.session.candidates]
      else Receipts(endings[..|endings| - 1], first)
  }

  /** No two of them share a backup. */
  ghost predicate Distinct(endings: seq<Ending>) {
    forall i, j | 0 <= i < j < |endings| :: endings[i].session.id != endings[j].session.id
  }

  /** Their backups exist and were not there at first with a receipt. */
  ghost predicate Backed(endings: seq<Ending>, used: set<nat>, firstReceipts: map<nat, Files>) {
    forall e | e in endings :: e.session.id in used && e.session.id !in firstReceipts
  }

  ghost predicate Recorded(s: State, first: Files, firstReceipts: map<nat, Files>) {
    && Chained(s.endings, first) && (s.generations != [] ==> Last(s) == InPlace(s.endings, first))
    && firstReceipts.Keys <= s.used
    && Distinct(s.endings) && Backed(s.endings, s.used, firstReceipts)
  }

  /** Where the receipt file stands while a session is under way. */
  ghost predicate Receipted(s: State, firstReceipts: map<nat, Files>) {
    var own := map[s.session.id := s.session.candidates];
    var before := Receipts(s.endings, firstReceipts);
    match s.phase
    case Idle => !s.journal ==> s.receipts == before
    case Committed => s.receipts == own
    case Restoring(_, cause) => s.receipts == if Issued(RolledBack(cause)) then own else before
    case _ => s.receipts == before
  }

  ghost predicate NewSession(s: State, firstReceipts: map<nat, Files>) {
    && s.session.id in s.used && s.session.id !in firstReceipts
    && forall e | e in s.endings :: e.session.id != s.session.id
  }

  ghost predicate ReadInv(s: State, first: Files, firstReceipts: map<nat, Files>) {
    && Inv(ReadActivator, s) && Recorded(s, first, firstReceipts) && Receipted(s, firstReceipts)
    && (s.phase.Idle? || NewSession(s, firstReceipts))
  }

  lemma EndedReceipts(s: State, outcome: Outcome, firstReceipts: map<nat, Files>)
    requires s.receipts ==
      if Issued(outcome) then map[s.session.id := s.session.candidates] else Receipts(s.endings, firstReceipts)
    ensures s.receipts == Receipts(Ended(s, outcome).endings, firstReceipts)
  {
    hide Issued;
    var endings' := s.endings + [Ending(s.session, outcome)];
    assert endings'[..|endings'| - 1] == s.endings;
  }

  lemma EndedRecorded(s: State, outcome: Outcome, first: Files, firstReceipts: map<nat, Files>)
    requires Recorded(s, first, firstReceipts) && NewSession(s, firstReceipts)
    requires s.generations != [] && s.session.snapshots == Last(s)
    ensures
      var s' := Ended(if outcome.Completed? then s.(generations := s.generations + [s.session.candidates]) else s, outcome);
      Recorded(s', first, firstReceipts)
  {
    hide Chained, Distinct, Backed;
    var e := Ending(s.session, outcome);
    ChainedMore(s.endings, e, first);
    DistinctMore(s.endings, e);
    assert Backed([e], s.used, firstReceipts) by { OneBacked(e, s.used, firstReceipts); }
    BackedMore(s.endings, e, s.used, firstReceipts);
  }

  lemma DistinctMore(endings: seq<Ending>, e: Ending)
    requires Distinct(endings) && forall x | x in endings :: x.session.id != e.session.id
    ensures Distinct(endings + [e])
  {
    assert forall i | 0 <= i < |endings| :: (endings + [e])[i] == endings[i] && endings[i] in endings;
  }

  lemma OneBacked(e: Ending, used: set<nat>, firstReceipts: map<nat, Files>)
    requires e.session.id in used && e.session.id !in firstReceipts
    ensures Backed([e], used, firstReceipts)
  {
  }

  lemma BackedMore(endings: seq<Ending>, e: Ending, used: set<nat>, firstReceipts: map<nat, Files>)
    requires Backed(endings, used, firstReceipts) && Backed([e], used, firstReceipts)
    ensures Backed(endings + [e], used, firstReceipts)
  {
    assert e in [e];
    assert forall x | x in endings + [e] :: x in endings || x == e;
  }

  lemma ChainedMore(endings: seq<Ending>, e: Ending, first: Files)
    requires Chained(endings, first) && e.session.snapshots == InPlace(endings, first)
    ensures Chained(endings + [e], first)
  {
    var endings' := endings + [e];
    forall i | 0 <= i < |endings'| ensures endings'[i].session.snapshots == InPlace(endings'[..i], first) {
      if i < |endings| { assert endings'[..i] == endings[..i]; } else { assert endings'[..i] == endings; }
    }
  }

  lemma ReadEffect(s: State, first: Files, firstReceipts: map<nat, Files>)
    requires ReadInv(s, first, firstReceipts)
    ensures ReadInv(Effect(ReadActivator, s), first, firstReceipts)
  {
    hide Inv, Chained, Distinct, Receipts;
    EffectInv(ReadActivator, s);
    InvFacts(s);
    match s.phase
    case Committed =>
      EndedReceipts(s, Completed, firstReceipts);
      EndedRecorded(s, Completed, first, firstReceipts);
    case Restoring(d, cause) =>
      if d >= |s.files| {
        EndedReceipts(s, RolledBack(cause), firstReceipts);
        EndedRecorded(s, RolledBack(cause), first, firstReceipts);
      }
    case _ =>
  }

  lemma InvFacts(s: State)
    requires Inv(ReadActivator, s)
    ensures s.generations != [] && (!s.journal ==> s.phase.Idle? || s.phase.Begun?)
    ensures s.journal || !s.phase.Idle? ==>
              s.session.snapshots == Last(s) && |s.session.snapshots| == |s.session.candidates| == |s.files|
  {
  }

  lemma ReadNext(s: State, e: Event, first: Files, firstReceipts: map<nat, Files>)
    requires ReadInv(s, first, firstReceipts)
    ensures ReadInv(Next(ReadActivator, s, e), first, firstReceipts)
  {
    hide ReadInv, Refuses, Caught, Effect, BeginStep;
    match e
    case Begin(id, candidates) => if s.phase.Idle? { ReadBegin(s, id, candidates, first, firstReceipts); }
    case Completes =>
      if Refuses(ReadActivator, s) { ReadCaught(s, false, first, firstReceipts); }
      else { ReadEffect(s, first, firstReceipts); }
    case Exception(late) => ReadCaught(s, late && !Refuses(ReadActivator, s), first, firstReceipts);
    case Crash(late) =>
      ReadEffect(s, first, firstReceipts);
      ReadCrash(s, first, firstReceipts);
      ReadCrash(Effect(ReadActivator, s), first, firstReceipts);
  }

  lemma ReadBegin(s: State, id: nat, candidates: Files, first: Files, firstReceipts: map<nat, Files>)
    requires ReadInv(s, first, firstReceipts) && s.phase.Idle?
    ensures ReadInv(BeginStep(ReadActivator, s, id, candidates), first, firstReceipts)
  {
    hide Chained, Distinct, Receipts;
    var s' := BeginStep(ReadActivator, s, id, candidates);
    assert Inv(ReadActivator, s') by { NextInv(ReadActivator, s, Begin(id, candidates)); }
  }

  lemma ReadCrash(s: State, first: Files, firstReceipts: map<nat, Files>)
    requires ReadInv(s, first, firstReceipts)
    ensures ReadInv(s.(phase := Idle), first, firstReceipts)
  {
    hide Chained, Distinct, Receipts;
  }

  lemma ReadCaught(s: State, late: bool, first: Files, firstReceipts: map<nat, Files>)
    requires ReadInv(s, first, firstReceipts)
    ensures ReadInv(Caught(ReadActivator, s, late), first, firstReceipts)
  {
    hide Inv, Chained, Distinct, Receipts, Effect;
    CaughtInv(ReadActivator, s, late);
    InvFacts(s);
    EffectShape(s);
  }

  lemma EffectShape(s: State)
    requires Inv(ReadActivator, s)
    ensures
      var s' := Effect(ReadActivator, s);
      && s'.session == s.session && s'.used == s.used
      && (s.phase.Begun? || s.phase.Journaled? || s.phase.Writing? || s.phase.Committing? ==>
            s'.endings == s.endings && s'.generations == s.generations && !s'.phase.Idle? && !s'.phase.Restoring?)
      && (s.phase.Begun? || s.phase.Journaled? || s.phase.Writing? ==> s'.receipts == s.receipts && !s'.phase.Committed?)
      && (s.phase.Committing? ==> s'.receipts == map[s.session.id := s.session.candidates])
      && (s.phase.Begun? ==> s'.journal)
      && (s.phase.Restoring? && s.phase.done < |s.files| ==>
            s' == s.(files := s'.files, phase := s'.phase) && s'.phase.Restoring?)
      && (s.phase.Idle? ==> s' == s)
  {
  }

  lemma {:induction false} ReadRun(s: State, events: seq<Event>, first: Files, firstReceipts: map<nat, Files>)
    requires ReadInv(s, first, firstReceipts)
    ensures ReadInv(Run(ReadActivator, s, events), first, firstReceipts)
    decreases |events|
  {
    hide ReadInv, Next;
    if events != [] {
      ReadNext(s, events[0], first, firstReceipts);
      ReadRun(Next(ReadActivator, s, events[0]), events[1..], first, firstReceipts);
    }
  }

  lemma {:induction false} Issuer(endings: seq<Ending>, k: nat, first: Files, firstReceipts: map<nat, Files>)
    requires Chained(endings, first) && LastIssuer(endings, k)
    ensures InPlace(endings, first) == Left(endings[k])
    ensures Receipts(endings, firstReceipts) == map[endings[k].session.id := endings[k].session.candidates]
    decreases |endings|
  {
    var n := |endings| - 1;
    if k < n {
      hide Issued, Chained, LastIssuer, Left;
      Earlier(endings, k, first);
      Issuer(endings[..n], k, first, firstReceipts);
    }
  }

  lemma Earlier(endings: seq<Ending>, k: nat, first: Files)
    requires Chained(endings, first) && LastIssuer(endings, k) && k < |endings| - 1
    ensures
      var n := |endings| - 1;
      && Chained(endings[..n], first) && LastIssuer(endings[..n], k) && endings[..n][k] == endings[k]
      && !Issued(endings[n].outcome) && Left(endings[n]) == InPlace(endings[..n], first)
  {
    var n := |endings| - 1;
    var before := endings[..n];
    assert forall i | 0 <= i < n :: before[i] == endings[i] && before[..i] == endings[..i];
    assert endings[n].session.snapshots == InPlace(before, first);
  }

  lemma {:induction false} NoIssuer(endings: seq<Ending>, first: map<nat, Files>)
    requires forall e | e in endings :: !Issued(e.outcome)
    ensures Receipts(endings, first) == first
    decreases |endings|
  {
    if endings != [] { NoIssuer(endings[..|endings| - 1], first); }
  }

  lemma {:induction false} ReceiptOf(endings: seq<Ending>, first: map<nat, Files>, id: nat)
    requires id in Receipts(endings, first)
    ensures id in first || exists e :: e in endings && e.session.id == id
    decreases |endings|
  {
    if endings != [] && !Issued(endings[|endings| - 1].outcome) { ReceiptOf(endings[..|endings| - 1], first, id); }
  }

  /** Over every run of the read activator, whenever no activation is pending: the receipt is that of the
      last session that issued one, and names the files in place if and only if that session completed or
      changed nothing. */
  lemma ReadReceiptTrueIff(s: State, events: seq<Event>)
    requires Fresh(s) && s.receipts.Keys <= s.used
    requires
      var s' := Run(ReadActivator, s, events);
      s'.phase.Idle? && !s'.journal
    ensures
      var s' := Run(ReadActivator, s, events);
      && (forall k: nat | LastIssuer(s'.endings, k) ::
            var e := s'.endings[k];
            && s'.receipts == map[e.session.id := e.session.candidates]
            && s'.files == Left(e)
            && (s'.receipts[e.session.id] == s'.files <==>
                  e.outcome.Completed? || e.session.candidates == e.session.snapshots))
      && ((forall e | e in s'.endings :: !Issued(e.outcome)) ==> s'.receipts == s.receipts)
  {
    hide Inv, Receipts, LastIssuer, Issued, Chained, Run;
    ReadStart(s);
    ReadRun(s, events, s.files, s.receipts);
    var s' := Run(ReadActivator, s, events);
    CommittedLast(ReadActivator, s');
    forall k: nat | LastIssuer(s'.endings, k)
      ensures
        && k < |s'.endings| && s'.files == Left(s'.endings[k])
        && s'.receipts == map[s'.endings[k].session.id := s'.endings[k].session.candidates]
    {
      IssuerKnown(s'.endings, k);
      Issuer(s'.endings, k, s.files, s.receipts);
    }
    if forall e | e in s'.endings :: !Issued(e.outcome) { NoIssuer(s'.endings, s.receipts); }
  }

  lemma IssuerKnown(endings: seq<Ending>, k: nat)
    requires LastIssuer(endings, k)
    ensures k < |endings|
  {
  }

  lemma ReadStart(s: State)
    requires Fresh(s) && s.receipts.Keys <= s.used
    ensures ReadInv(s, s.files, s.receipts)
  {
  }

  /** A session that was rolled back has its receipt if and only if the exception came after the receipt
      was in place: late in writing it, or in the removal of the journal. */
  lemma RolledBackReceiptIff(s: State, events: seq<Event>)
    requires Fresh(s) && s.receipts.Keys <= s.used
    requires
      var s' := Run(ReadActivator, s, events);
      && s'.phase.Idle? && !s'.journal && s'.endings != []
      && s'.endings[|s'.endings| - 1].outcome.RolledBack?
    ensures
      var s' := Run(ReadActivator, s, events);
      var e := s'.endings[|s'.endings| - 1];
      && s'.files == e.session.snapshots
      && (e.session.id in s'.receipts <==>
            (e.outcome.cause.stage.AtReceipt? && e.outcome.cause.late) || e.outcome.cause.stage.AtRemoval?)
  {
    hide Inv, Run;
    ReadStart(s);
    ReadRun(s, events, s.files, s.receipts);
    var s' := Run(ReadActivator, s, events);
    CommittedLast(ReadActivator, s');
    var n := |s'.endings| - 1;
    var e := s'.endings[n];
    if !Issued(e.outcome) && e.session.id in s'.receipts {
      ReceiptOf(s'.endings[..n], s.receipts, e.session.id);
    }
  }

  /** Both late ways into the handler are there from every activation that got that far, so the receipt
      lies afterwards exactly when the activation was to change something. */
  lemma ReadReceiptMayLie(s: State)
    requires Inv(ReadActivator, s) && (s.phase.Committing? || s.phase.Committed?)
    ensures
      var s' := Run(ReadActivator, s, [Exception(true)] + Completions(|s.files| + 1));
      && s'.phase.Idle? && !s'.journal && s'.endings != [] && s'.endings[|s'.endings| - 1].session == s.session
      && s.session.id in s'.receipts
      && (s'.receipts[s.session.id] == s'.files <==> s.session.candidates == s.session.snapshots)
  {
    var events := [Exception(true)] + Completions(|s.files| + 1);
    assert events[1..] == Completions(|s.files| + 1);
    var s1 := Next(ReadActivator, s, Exception(true));
    NextInv(ReadActivator, s, Exception(true));
    RollbackEnds(ReadActivator, s1, |s.files| + 1);
  }

  // ----- The program -----

  lemma {:induction false} RunJoined(v: Variant, s: State, a: seq<Event>, b: seq<Event>)
    ensures Run(v, s, a + b) == Run(v, Run(v, s, a), b)
    decreases |a|
  {
    if a == [] {
      assert a + b == b;
    } else {
      assert (a + b)[1..] == a[1..] + b;
      RunJoined(v, Next(v, s, a[0]), a[1..], b);
    }
  }

  lemma RunOne(v: Variant, s: State, a: seq<Event>, e: Event)
    ensures Run(v, s, a + [e]) == Next(v, Run(v, s, a), e)
  {
    RunJoined(v, s, a, [e]);
    assert Run(v, Next(v, Run(v, s, a), e), []) == Next(v, Run(v, s, a), e);
  }

  /** How one step goes: it raises, before or after its effect, or it does not. */
  datatype Decision = Succeeds | Throws(late: bool)

  function Seen(d: Decision): Event {
    match d
    case Succeeds => Completes
    case Throws(late) => Exception(late)
  }

  datatype Steps = Steps(journal: Decision, prepare: Decision, services: Decision, receipt: Decision, removal: Decision)

  datatype End = Finished | Stopped | MustRestore(from: nat, cause: Cause)

  /** `activate` of either activator: the files, the journal and the receipts are the fields; `mutated`
      and `commitStarted` are the program's own flags. */
  class Activator {
    const variant: Variant
    var files: Files
    var journal: bool
    var receipts: map<nat, Files>
    var used: set<nat>
    var session: Session
    ghost var generations: seq<Files>
    ghost var endings: seq<Ending>

    ghost function At(phase: Phase): State
      reads this
    {
      State(files, journal, receipts, used, session, phase, generations, endings)
    }

    constructor (variant: Variant, files: Files)
      ensures this.variant == variant && Fresh(At(Idle)) && this.files == files
    {
      this.variant := variant;
      this.files := files;
      this.journal := false;
      this.receipts := map[];
      this.session := Session(0, files, files);
      this.used := {};
      this.generations := [files];
      this.endings := [];
    }

    /** Installs the candidates one by one. */
    method WriteCandidates(decide: nat -> Decision) returns (raised: bool, late: bool, ghost more: seq<Event>)
      requires |session.candidates| == |files|
      modifies this`files
      ensures |files| == old(|files|)
      ensures Run(variant, old(At(Writing(0))), more) == At(if raised then Restoring(0, Cause(AtFiles, late)) else Writing(|files|))
    {
      hide Run;
      more := [];
      ghost var start := At(Writing(0));
      RunNothing(variant, start);
      var d := 0;
      while d < |files|
        invariant 0 <= d <= |files| == old(|files|)
        invariant Run(variant, start, more) == At(Writing(d))
      {
        var decision := decide(d);
        RunOne(variant, start, more, Seen(decision));
        more := more + [Seen(decision)];
        if decision.Succeeds? || decision.late {
          files := files[d := session.candidates[d]];
        }
        if decision.Throws? {
          return true, decision.late, more;
        }
        d := d + 1;
      }
      raised, late := false, false;
    }

    /** The handler: each path is checked for drift and put back, then the services are restored and the
        journal is removed.  Whatever raises ends it. */
    method RollBack(from: nat, cause: Cause, decide: nat -> Decision) returns (ghost more: seq<Event>)
      requires |session.candidates| == |session.snapshots| == |files| && from <= |files|
      modifies this`files, this`journal, this`endings
      ensures Run(variant, old(At(Restoring(from, cause))), more) == At(Idle)
      ensures endings == old(endings) || (!journal && endings == old(endings) + [Ending(session, RolledBack(cause))])
    {
      hide Run, Drifted;
      more := [];
      ghost var start := At(Restoring(from, cause));
      RunNothing(variant, start);
      var d := from;
      while d < |files|
        invariant from <= d <= |files| == old(|files|)
        invariant Run(variant, start, more) == At(Restoring(d, cause)) && endings == old(endings)
      {
        var decision := decide(d);
        var drifted := Drifted(files[d], session.candidates[d], session.snapshots[d]);
        RunOne(variant, start, more, Seen(decision));
        more := more + [Seen(decision)];
        if !drifted && (decision.Succeeds? || decision.late) {
          files := files[d := session.snapshots[d]];
        }
        if drifted || decision.Throws? {
          return;
        }
        d := d + 1;
      }
      var decision := decide(|files|);
      RunOne(variant, start, more, Seen(decision));
      more := more + [Seen(decision)];
      if decision.Succeeds? {
        journal := false;
        endings := endings + [Ending(session, RolledBack(cause))];
      }
    }

    /** The receipt and the removal of the journal.  The write activator stops where it is when one of
        them raises; the read activator goes to its handler. */
    method Commit(writeReceipt: Decision, removeJournal: Decision)
      returns (ok: bool, cause: Cause, ghost more: seq<Event>)
      requires |session.candidates| == |files|
      modifies this`receipts, this`journal, this`generations, this`endings
      ensures Run(variant, old(At(Committing)), more)
              == At(if ok || variant.WriteActivator? then Idle else Restoring(0, cause))
      ensures ok ==> !journal && session.id in receipts && receipts[session.id] == session.candidates
      ensures ok ==> generations == old(generations) + [session.candidates]
      ensures !ok ==> generations == old(generations) && journal == old(journal)
    {
      hide Run;
      ghost var start := At(Committing);
      RunNothing(variant, start);
      more := [];
      cause := Cause(AtReceipt, writeReceipt.Throws? && writeReceipt.late);
      RunOne(variant, start, more, Seen(writeReceipt));
      more := more + [Seen(writeReceipt)];
      if variant.WriteActivator? && session.id in receipts {
        return false, cause, more;
      }
      if writeReceipt.Succeeds? || writeReceipt.late {
        receipts := (if variant.ReadActivator? then map[] else receipts)[session.id := session.candidates];
      }
      if writeReceipt.Throws? {
        return false, cause, more;
      }
      RunOne(variant, start, more, Seen(removeJournal));
      more := more + [Seen(removeJournal)];
      if removeJournal.Throws? {
        cause := Cause(AtRemoval, removeJournal.late);
        return false, cause, more;
      }
      journal := false;
      generations := generations + [session.candidates];
      endings := endings + [Ending(session, Completed)];
      ok := true;
    }

    /** `early` are the journal write, the preparation of services and ownership, the services after the
        files, the receipt and the removal of the journal. */
    method Activate(id: nat, candidates: Files, early: Steps, decideFiles: nat -> Decision,
            decideRollback: nat -> Decision)
      returns (ok: bool, ghost trace: seq<Event>)
      requires Inv(variant, At(Idle)) && |candidates| == |files|
      modifies this
      ensures Run(variant, old(At(Idle)), trace) == At(Idle) && Inv(variant, At(Idle))
      ensures old(journal) || (variant.ReadActivator? && id in old(used)) ==> !ok && At(Idle) == old(At(Idle))
      ensures ok ==> files == candidates && !journal && id in receipts && receipts[id] == candidates
      ensures !ok && !journal ==> files == old(files)
    {
      hide Run, Inv;
      trace := [];
      ghost var start := At(Idle);
      RunNothing(variant, start);
      if journal || (variant.ReadActivator? && id in used) {
        return false, [];
      }
      RunOne(variant, start, trace, Begin(id, candidates));
      trace := trace + [Begin(id, candidates)];
      session := Session(id, candidates, files);
      used := used + {id};
      var end: End;
      end, trace := Proceed(start, trace, early, decideFiles);
      if end.MustRestore? {
        ghost var more := RollBack(end.from, end.cause, decideRollback);
        RunJoined(variant, start, trace, more);
        trace := trace + more;
      }
      RunInv(variant, start, trace);
      CommittedLast(variant, At(Idle));
      CommittedLast(variant, start);
      ok := end.Finished?;
    }

    method Proceed(ghost start: State, ghost before: seq<Event>, steps: Steps, decideFiles: nat -> Decision)
      returns (end: End, ghost trace: seq<Event>)
      requires Run(variant, start, before) == At(Begun) && |session.candidates| == |files|
      modifies this`files, this`journal, this`receipts, this`generations, this`endings
      ensures |files| == old(|files|)
      ensures Run(variant, start, trace) == At(if end.MustRestore? then Restoring(end.from, end.cause) else Idle)
      ensures end.MustRestore? ==> end.from <= |files|
      ensures end.Finished? ==> !journal && session.id in receipts && receipts[session.id] == session.candidates
      ensures generations == if end.Finished? then old(generations) + [session.candidates] else old(generations)
    {
      hide Run;
      trace := before;
      RunOne(variant, start, trace, Seen(steps.journal));
      trace := trace + [Seen(steps.journal)];
      if steps.journal.Succeeds? || steps.journal.late {
        journal := true;
      }
      if steps.journal.Throws? {
        return Stopped, trace;
      }
      RunOne(variant, start, trace, Seen(steps.prepare));
      trace := trace + [Seen(steps.prepare)];
      if steps.prepare.Throws? {
        // The write activator has not set its mutation flag yet.
        return MustRestore(if variant.ReadActivator? then 0 else |files|, Cause(AtPreparation, steps.prepare.late)), trace;
      }
      end, trace := Install(start, trace, steps, decideFiles);
    }

    /** The candidates, the services and the commit. */
    method Install(ghost start: State, ghost before: seq<Event>, steps: Steps, decideFiles: nat -> Decision)
      returns (end: End, ghost trace: seq<Event>)
      requires Run(variant, start, before) == At(Writing(0)) && |session.candidates| == |files|
      modifies this`files, this`journal, this`receipts, this`generations, this`endings
      ensures |files| == old(|files|)
      ensures Run(variant, start, trace) == At(if end.MustRestore? then Restoring(end.from, end.cause) else Idle)
      ensures end.MustRestore? ==> end.from <= |files|
      ensures end.Finished? ==> !journal && session.id in receipts && receipts[session.id] == session.candidates
      ensures generations == if end.Finished? then old(generations) + [session.candidates] else old(generations)
    {
      hide Run;
      trace := before;
      ghost var more;
      var raised, late;
      raised, late, more := WriteCandidates(decideFiles);
      RunJoined(variant, start, trace, more);
      trace := trace + more;
      if raised {
        return MustRestore(0, Cause(AtFiles, late)), trace;
      }
      RunOne(variant, start, trace, Seen(steps.services));
      trace := trace + [Seen(steps.services)];
      if steps.services.Throws? {
        return MustRestore(0, Cause(AtFiles, steps.services.late)), trace;
      }
      var ok, cause;
      ok, cause, more := Commit(steps.receipt, steps.removal);
      RunJoined(variant, start, trace, more);
      trace := trace + more;
      end := if ok then Finished else if variant.WriteActivator? then Stopped else MustRestore(0, cause);
    }
  }

  /** An idle state without a journal holds its newest generation. */
  lemma CommittedLast(v: Variant, s: State)
    requires Inv(v, s) && s.phase.Idle?
    ensures s.generations != [] && (!s.journal ==> s.files == Last(s))
  {
  }

  lemma RunNothing(v: Variant, s: State)
    ensures Run(v, s, []) == s
  {
  }
}
