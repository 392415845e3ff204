/** The durable journal of the phase-F transaction: its records, the predecessor chain, and the
    transition check that every reader runs before it trusts the journal. */
module PhaseFJournal {
  import opened PhaseFWorld
  import opened PhaseFBackend
  import opened PhaseFProgram

  datatype StepId = NoStep | Operation(op: Op) | ForwardOperation(forward: ForwardOp)

  datatype Kind =
    | Gen0
    | OpIntent | OpDispatched | OpObserved(seen: Observation)
    | RollbackStarted | CompIntent | CompDispatched | CompObserved(seen: Observation)
    | ForwardStarted | ForwardIntent | ForwardDispatched | ForwardObserved(seen: Observation)
    | WriterIntent | WriterDispatched | WriterReturned
    | TerminalOld | TerminalTarget | TerminalAmbiguous

  /** A digest remembers what it is a digest of: distinct records have distinct digests. */
  datatype Hash = NoHash | Sha(of: Record)

  datatype Record = Record(sequence: nat, predecessor: Hash, kind: Kind, step: StepId)

  function Last(j: seq<Record>): Record
    requires j != []
  {
    j[|j| - 1]
  }

  function Append(j: seq<Record>, kind: Kind, step: StepId): seq<Record>
    requires j != []
  {
    j + [Record(|j|, Sha(Last(j)), kind, step)]
  }

  predicate IsOpKind(k: Kind) {
    k.OpIntent? || k.OpDispatched? || k.OpObserved? || k.CompIntent? || k.CompDispatched? || k.CompObserved?
  }

  predicate IsForwardKind(k: Kind) {
    k.ForwardIntent? || k.ForwardDispatched? || k.ForwardObserved?
  }

  /** `_s2_parse` on the fields that vary. */
  predicate Parses(r: Record) {
    && !r.kind.TerminalTarget?
    && (if r.kind.Gen0? then r.sequence == 0 && r.predecessor.NoHash? && r.step.NoStep?
        else
          && r.sequence > 0 && r.predecessor.Sha?
          && (if IsOpKind(r.kind) then r.step.Operation?
              else if IsForwardKind(r.kind) then r.step.ForwardOperation? && IsForward(r.step.forward)
              else r.step.NoStep?))
  }

  predicate LinkedAt(j: seq<Record>, i: nat)
    requires i < |j|
  {
    j[i].sequence == i && j[i].predecessor == (if i == 0 then NoHash else Sha(j[i - 1]))
  }

  predicate Linked(j: seq<Record>) {
    forall i | 0 <= i < |j| :: LinkedAt(j, i)
  }

  // ----- The transition check -----

  datatype Mode = Activation | Rollback | Forwarding

  datatype Expected =
    | XOpIntent | XOpDispatched | XOpObserve
    | XWriterIntent | XWriterDispatched | XReturnedOrForward | XPostWriter
    | XCompIntent | XCompDispatched | XCompObserve
    | XForwardIntent | XForwardDispatched | XForwardObserve
    | XTerminalOld | XTerminalAmbiguous | XClosed

  datatype Scan = Scan(
    mode: Mode, expected: Expected, activation: nat, completed: seq<Op>,
    program: seq<Op>, rollback: nat, forward: nat)

  const START := Scan(Activation, XOpIntent, 0, [], [], 0, 0)

  /** One turn of the loop in `_s2_validate_transitions`; `None` is a rejection. */
  function ScanStep(v: Scan, r: Record): Option<Scan> {
    if v.expected.XClosed? then None
    else if v.expected.XTerminalAmbiguous? then
      if r.kind.TerminalAmbiguous? then Some(v.(expected := XClosed)) else None
    else if v.mode.Activation? && r.kind.RollbackStarted? then
      if (v.expected.XOpIntent? || v.expected.XOpDispatched? || v.expected.XWriterIntent? || v.expected.XWriterDispatched?)
         && v.completed != []
      then Some(v.(mode := Rollback, expected := XCompIntent, program := RollbackProgram(v.completed), rollback := 0))
      else None
    else if v.mode.Activation? && r.kind.ForwardStarted? then
      if v.expected.XReturnedOrForward? || v.expected.XPostWriter?
      then Some(v.(mode := Forwarding, expected := XForwardIntent))
      else None
    else
      match v.mode
      case Activation => if v.activation < SIZE then ScanOperation(v, r) else ScanWriter(v, r)
      case Rollback => ScanRollback(v, r)
      case Forwarding => ScanForward(v, r)
  }

  function ScanOperation(v: Scan, r: Record): Option<Scan>
    requires v.activation < SIZE
  {
    if r.step != Operation(ProgramOp(v.activation)) then None
    else if r.kind.OpIntent? && v.expected.XOpIntent? then Some(v.(expected := XOpDispatched))
    else if r.kind.OpDispatched? && v.expected.XOpDispatched? then Some(v.(expected := XOpObserve))
    else if r.kind.OpObserved? && v.expected.XOpObserve? then
      if r.kind.seen.SeesDesired? then
        Some(v.(completed := v.completed + [ProgramOp(v.activation)], activation := v.activation + 1,
                expected := if v.activation + 1 < SIZE then XOpIntent else XWriterIntent))
      else Some(v.(expected := XTerminalAmbiguous))
    else None
  }

  function ScanWriter(v: Scan, r: Record): Option<Scan> {
    match v.expected
    case XWriterIntent => if r.kind.WriterIntent? then Some(v.(expected := XWriterDispatched)) else None
    case XWriterDispatched => if r.kind.WriterDispatched? then Some(v.(expected := XReturnedOrForward)) else None
    case XReturnedOrForward => if r.kind.WriterReturned? then Some(v.(expected := XPostWriter)) else None
    case XPostWriter => if r.kind.TerminalTarget? then Some(v.(expected := XClosed)) else None
    case _ => None
  }

  function ScanRollback(v: Scan, r: Record): Option<Scan> {
    if v.rollback >= |v.program| then
      if r.kind.TerminalOld? then Some(v.(expected := XClosed)) else None
    else if r.step != Operation(v.program[v.rollback]) then None
    else if r.kind.CompIntent? && v.expected.XCompIntent? then Some(v.(expected := XCompDispatched))
    else if r.kind.CompDispatched? && v.expected.XCompDispatched? then Some(v.(expected := XCompObserve))
    else if r.kind.CompObserved? && v.expected.XCompObserve? then
      if r.kind.seen.SeesOld? then
        Some(v.(rollback := v.rollback + 1,
                expected := if v.rollback + 1 < |v.program| then XCompIntent else XTerminalOld))
      else Some(v.(expected := XTerminalAmbiguous))
    else None
  }

  function ScanForward(v: Scan, r: Record): Option<Scan> {
    if v.forward >= FORWARD_SIZE then
      if r.kind.TerminalOld? then Some(v.(expected := XClosed)) else None
    else if r.step != ForwardOperation(ForwardProgramOp(v.forward)) then None
    else if r.kind.ForwardIntent? && v.expected.XForwardIntent? then Some(v.(expected := XForwardDispatched))
    else if r.kind.ForwardDispatched? && v.expected.XForwardDispatched? then Some(v.(expected := XForwardObserve))
    else if r.kind.ForwardObserved? && v.expected.XForwardObserve? then
      if r.kind.seen.SeesDesired? then
        Some(v.(forward := v.forward + 1,
                expected := if v.forward + 1 < FORWARD_SIZE then XForwardIntent else XTerminalOld))
      else Some(v.(expected := XTerminalAmbiguous))
    else None
  }

  function ScanAll(j: seq<Record>): Option<Scan> {
    if j == [] then None
    else if |j| == 1 then if j[0].kind.Gen0? then Some(START) else None
    else
      var before := ScanAll(j[..|j| - 1]);
      if before.None? then None else ScanStep(before.value, Last(j))
  }

  /** `_s2_validate_transitions`. */
  method ValidateTransitions(entries: seq<Record>) returns (accepted: bool)
    ensures accepted <==> ScanAll(entries).Some?
  {
    if entries == [] || !entries[0].kind.Gen0? {
      ScanNeedsGen0(entries);
      return false;
    }
    var v := START;
    var i := 1;
    assert entries[..1] == [entries[0]];
    while i < |entries|
      invariant 1 <= i <= |entries|
      invariant ScanAll(entries[..i]) == Some(v)
    {
      var next := ScanStep(v, entries[i]);
      assert entries[..i + 1][..i] == entries[..i] && Last(entries[..i + 1]) == entries[i];
      if next.None? {
        ScanPrefix(entries, i + 1);
        return false;
      }
      v := next.value;
      i := i + 1;
    }
    assert entries[..i] == entries;
    return true;
  }

  lemma {:induction false} ScanNeedsGen0(j: seq<Record>)
    requires j == [] || !j[0].kind.Gen0?
    ensures ScanAll(j).None?
  {
    if |j| > 1 {
      ScanNeedsGen0(j[..|j| - 1]);
    }
  }

  /** An accepted journal has only accepted prefixes. */
  lemma {:induction false} ScanPrefix(j: seq<Record>, i: nat)
    requires 0 < i <= |j| && ScanAll(j[..i]).None?
    ensures ScanAll(j).None?
  {
    if i < |j| {
      assert j[..|j| - 1][..i] == j[..i];
      ScanPrefix(j[..|j| - 1], i);
    } else {
      assert j[..i] == j;
    }
  }

  // ----- What a reader accepts -----

  predicate Accepted(j: seq<Record>) {
    j != [] && Linked(j) && (forall r | r in j :: Parses(r)) && ScanAll(j).Some?
  }

  lemma AppendScan(j: seq<Record>, kind: Kind, step: StepId)
    requires j != [] && ScanAll(j).Some?
    ensures ScanAll(Append(j, kind, step)) == ScanStep(ScanAll(j).value, Last(Append(j, kind, step)))
  {
    var j' := Append(j, kind, step);
    assert j'[..|j'| - 1] == j;
  }

  lemma AppendAccepted(j: seq<Record>, kind: Kind, step: StepId)
    requires Accepted(j)
    ensures
      var j' := Append(j, kind, step);
      Accepted(j') <==> Parses(Last(j')) && ScanStep(ScanAll(j).value, Last(j')).Some?
  {
    var j' := Append(j, kind, step);
    AppendScan(j, kind, step);
    assert Linked(j') by {
      forall i | 0 <= i < |j'| ensures LinkedAt(j', i) {
        assert i < |j| ==> LinkedAt(j, i);
      }
    }
    assert Last(j') in j';
    assert forall r | r in j' :: r in j || r == Last(j');
  }

  lemma LinkedPrefix(j: seq<Record>, n: nat)
    requires Linked(j) && n <= |j|
    ensures Linked(j[..n])
  {
    forall i | 0 <= i < n ensures LinkedAt(j[..n], i) {
      assert LinkedAt(j, i);
    }
  }

  /** The newest record pins the whole history: the predecessor digests leave no room to rewrite it. */
  lemma {:induction false} LastPinsHistory(a: seq<Record>, b: seq<Record>)
    requires a != [] && b != [] && Linked(a) && Linked(b) && Last(a) == Last(b)
    ensures a == b
  {
    assert LinkedAt(a, |a| - 1) && LinkedAt(b, |b| - 1);
    if |a| > 1 {
      var a', b' := a[..|a| - 1], b[..|b| - 1];
      LinkedPrefix(a, |a| - 1);
      LinkedPrefix(b, |b| - 1);
      assert Last(a).predecessor == Sha(Last(a')) && Last(b).predecessor == Sha(Last(b'));
      LastPinsHistory(a', b');
      assert a == a' + [Last(a)] && b == b' + [Last(b)];
    }
  }

  // ----- What the drivers read back -----

  function CompletedOps(j: seq<Record>): seq<Op> {
    if j == [] then []
    else
      var rest := CompletedOps(j[..|j| - 1]);
      if Last(j).kind == OpObserved(SeesDesired) && Last(j).step.Operation? then rest + [Last(j).step.op] else rest
  }

  function CompensatedOps(j: seq<Record>): seq<Op> {
    if j == [] then []
    else
      var rest := CompensatedOps(j[..|j| - 1]);
      if Last(j).kind == CompObserved(SeesOld) && Last(j).step.Operation? then rest + [Last(j).step.op] else rest
  }

  function ForwardedOps(j: seq<Record>): seq<ForwardOp> {
    if j == [] then []
    else
      var rest := ForwardedOps(j[..|j| - 1]);
      if Last(j).kind == ForwardObserved(SeesDesired) && Last(j).step.ForwardOperation?
      then rest + [Last(j).step.forward] else rest
  }

  predicate Mentions(j: seq<Record>, kind: Kind) {
    exists r | r in j :: r.kind == kind
  }

  /** The newest record and what the transition scan expects next determine each other. */
  ghost predicate Agrees(v: Scan, last: Record) {
    match v.expected
    case XOpIntent =>
      v.mode.Activation? && v.activation < SIZE
      && (if v.activation == 0 then last.kind.Gen0?
          else last.kind == OpObserved(SeesDesired) && last.step == Operation(ProgramOp(v.activation - 1)))
    case XOpDispatched =>
      v.mode.Activation? && v.activation < SIZE && last.kind.OpIntent? && last.step == Operation(ProgramOp(v.activation))
    case XOpObserve =>
      v.mode.Activation? && v.activation < SIZE && last.kind.OpDispatched? && last.step == Operation(ProgramOp(v.activation))
    case XWriterIntent =>
      v.mode.Activation? && v.activation == SIZE
      && last.kind == OpObserved(SeesDesired) && last.step == Operation(ProgramOp(SIZE - 1))
    case XWriterDispatched => v.mode.Activation? && v.activation == SIZE && last.kind.WriterIntent?
    case XReturnedOrForward => v.mode.Activation? && v.activation == SIZE && last.kind.WriterDispatched?
    case XPostWriter => v.mode.Activation? && v.activation == SIZE && last.kind.WriterReturned?
    case XCompIntent =>
      v.mode.Rollback? && v.rollback < |v.program|
      && (if v.rollback == 0 then last.kind.RollbackStarted? else last.kind == CompObserved(SeesOld))
    case XCompDispatched =>
      v.mode.Rollback? && v.rollback < |v.program| && last.kind.CompIntent? && last.step == Operation(v.program[v.rollback])
    case XCompObserve =>
      v.mode.Rollback? && v.rollback < |v.program| && last.kind.CompDispatched? && last.step == Operation(v.program[v.rollback])
    case XForwardIntent =>
      v.mode.Forwarding? && v.forward < FORWARD_SIZE
      && (if v.forward == 0 then last.kind.ForwardStarted? else last.kind == ForwardObserved(SeesDesired))
    case XForwardDispatched =>
      v.mode.Forwarding? && v.forward < FORWARD_SIZE
      && last.kind.ForwardIntent? && last.step == ForwardOperation(ForwardProgramOp(v.forward))
    case XForwardObserve =>
      v.mode.Forwarding? && v.forward < FORWARD_SIZE
      && last.kind.ForwardDispatched? && last.step == ForwardOperation(ForwardProgramOp(v.forward))
    case XTerminalOld =>
      || (v.mode.Rollback? && v.rollback == |v.program| && last.kind == CompObserved(SeesOld))
      || (v.mode.Forwarding? && v.forward == FORWARD_SIZE && last.kind == ForwardObserved(SeesDesired))
    case XTerminalAmbiguous =>
      || (v.mode.Activation? && v.activation < SIZE && last.kind.OpObserved? && !last.kind.seen.SeesDesired?)
      || (v.mode.Rollback? && last.kind.CompObserved? && !last.kind.seen.SeesOld?)
      || (v.mode.Forwarding? && last.kind.ForwardObserved? && !last.kind.seen.SeesDesired?)
    case XClosed =>
      || last.kind.TerminalAmbiguous?
      || (last.kind.TerminalOld? && v.mode.Rollback? && v.rollback == |v.program|)
      || (last.kind.TerminalOld? && v.mode.Forwarding? && v.forward == FORWARD_SIZE)
  }

  ghost predicate PastWriter(v: Scan) {
    v.mode.Forwarding? || v.expected.XReturnedOrForward? || v.expected.XPostWriter?
  }

  /** the scan's own variables, together with the newest record. */
  ghost predicate Shape(v: Scan, last: Record) {
    && v.activation <= SIZE && v.rollback <= |v.program| && v.forward <= FORWARD_SIZE
    && v.completed == First(v.activation)
    && (v.mode.Rollback? ==> v.activation > 0 && v.program == RollbackProgram(v.completed))
    && (!v.mode.Rollback? ==> v.rollback == 0)
    && (if v.mode.Forwarding? then v.activation == SIZE else v.forward == 0)
    && Agrees(v, last)
  }

  /** The sequences a driver filters out of the journal. */
  ghost predicate ReadsBack(j: seq<Record>, v: Scan) {
    && v.rollback <= |v.program|
    && CompletedOps(j) == v.completed
    && CompensatedOps(j) == (if v.mode.Rollback? then v.program[..v.rollback] else [])
    && ForwardedOps(j) == (if v.mode.Forwarding? then FirstForward(v.forward) else [])
  }

  ghost predicate Marks(j: seq<Record>, v: Scan) {
    && (Mentions(j, RollbackStarted) <==> v.mode.Rollback?)
    && (Mentions(j, ForwardStarted) <==> v.mode.Forwarding?)
    && (Mentions(j, WriterDispatched) <==> PastWriter(v))
  }

  ghost predicate View(j: seq<Record>, v: Scan) {
    j != [] && Shape(v, Last(j)) && ReadsBack(j, v) && Marks(j, v)
  }

  lemma ReadBackStep(j: seq<Record>, r: Record)
    ensures CompletedOps(j + [r]) ==
              (if r.kind == OpObserved(SeesDesired) && r.step.Operation? then CompletedOps(j) + [r.step.op] else CompletedOps(j))
    ensures CompensatedOps(j + [r]) ==
              (if r.kind == CompObserved(SeesOld) && r.step.Operation? then CompensatedOps(j) + [r.step.op] else CompensatedOps(j))
    ensures ForwardedOps(j + [r]) ==
              (if r.kind == ForwardObserved(SeesDesired) && r.step.ForwardOperation?
               then ForwardedOps(j) + [r.step.forward] else ForwardedOps(j))
  {
    assert (j + [r])[..|j + [r]| - 1] == j;
  }

  lemma MentionsStep(j: seq<Record>, r: Record, kind: Kind)
    ensures Mentions(j + [r], kind) <==> Mentions(j, kind) || r.kind == kind
  {
    assert forall x :: x in j + [r] <==> x in j || x == r;
    assert r in j + [r];
  }

  lemma ShapeStep(v: Scan, last: Record, r: Record)
    requires Shape(v, last) && Parses(r) && ScanStep(v, r).Some?
    ensures Shape(ScanStep(v, r).value, r)
  {
    hide ProgramOp, ForwardProgramOp, Select;
    if v.mode.Activation? && r.kind.RollbackStarted? && !v.expected.XTerminalAmbiguous? {
      RollbackOrdered(v.activation);
      PositionsInverse(0);
      assert ProgramOp(0) in RollbackProgram(v.completed);
    }
  }

  lemma ReadsBackStep(j: seq<Record>, v: Scan, last: Record, r: Record)
    requires Shape(v, last) && ReadsBack(j, v) && Parses(r) && ScanStep(v, r).Some?
    ensures ReadsBack(j + [r], ScanStep(v, r).value)
  {
    hide ProgramOp, ForwardProgramOp, Select, CompletedOps, CompensatedOps, ForwardedOps, RollbackProgram, First;
    ReadBackStep(j, r);
    var v' := ScanStep(v, r).value;
    assert v'.program[..0] == [];
    if r.kind == CompObserved(SeesOld) && v.rollback < |v.program| {
      assert v.program[..v.rollback] + [v.program[v.rollback]] == v.program[..v.rollback + 1];
    }
  }

  lemma MarksStep(j: seq<Record>, v: Scan, last: Record, r: Record)
    requires Shape(v, last) && Marks(j, v) && Parses(r) && ScanStep(v, r).Some?
    ensures Marks(j + [r], ScanStep(v, r).value)
  {
    hide ProgramOp, ForwardProgramOp, Select, RollbackProgram, Mentions, First, IsForward;
    MentionsStep(j, r, RollbackStarted);
    MentionsStep(j, r, ForwardStarted);
    MentionsStep(j, r, WriterDispatched);
  }

  /** An accepted record keeps the reader's view and the scan's variables together. */
  lemma ViewStep(j: seq<Record>, v: Scan, r: Record)
    requires View(j, v) && Parses(r) && ScanStep(v, r).Some?
    ensures View(j + [r], ScanStep(v, r).value)
  {
    ShapeStep(v, Last(j), r);
    ReadsBackStep(j, v, Last(j), r);
    MarksStep(j, v, Last(j), r);
    assert Last(j + [r]) == r;
  }

  /** What the drivers recompute from an accepted journal is what the transition scan tracked, so the drivers'
      own order checks never fail on it. */
  lemma {:induction false} AcceptedView(j: seq<Record>)
    requires Accepted(j)
    ensures View(j, ScanAll(j).value)
  {
    if |j| == 1 {
      assert j == [] + [j[0]];
      ReadBackStep([], j[0]);
      MentionsStep([], j[0], RollbackStarted);
      MentionsStep([], j[0], ForwardStarted);
      MentionsStep([], j[0], WriterDispatched);
    } else {
      var before := j[..|j| - 1];
      assert j == before + [Last(j)];
      assert Accepted(before) by {
        LinkedPrefix(j, |j| - 1);
        assert forall r | r in before :: r in j;
      }
      AcceptedView(before);
      ViewStep(before, ScanAll(before).value, Last(j));
    }
  }
}
