/** Activating a Definition release: the registry's entries are rewritten in place and two symlinks are
    replaced.  The registry and the pointers are meant to tell the same story. */
module DefinitionRegistry {
  import opened PhaseFWorld

  const DEV: nat := 0

  /** `active` is the entry's sorted list of environments without repetition; `typed` says that it is a
      list at all. */
  datatype Entry = Entry(id: nat, root: nat, active: set<nat>, typed: bool)
  datatype Candidate = Candidate(version: nat, active: bool)

  datatype Registry = Registry(
    entries: seq<Entry>, candidates: seq<Candidate>,
    activeVersion: Option<nat>, previousVersion: Option<nat>, activeId: Option<nat>, previousId: Option<nat>)

  /** The registry file and the two pointers; a pointer is the release root it resolves to. */
  datatype Store = Store(registry: Registry, current: Option<nat>, previous: Option<nat>)

  /** `approved` stands for the approval, the summary and the immutability and checksum checks. */
  datatype Request = Request(environment: nat, id: nat, root: nat, version: nat, approved: bool)

  // ----- The specification -----

  function Prior(entries: seq<Entry>, environment: nat): seq<nat> {
    if entries == [] then []
    else
      var rest := Prior(entries[..|entries| - 1], environment);
      var e := entries[|entries| - 1];
      if environment in e.active then rest + [e.id] else rest
  }

  function Matching(entries: seq<Entry>, id: nat): seq<Entry> {
    if entries == [] then []
    else
      var rest := Matching(entries[..|entries| - 1], id);
      var e := entries[|entries| - 1];
      if e.id == id then rest + [e] else rest
  }

  function RewrittenEntry(e: Entry, environment: nat, id: nat): Entry {
    e.(active := e.active - {environment} + (if e.id == id then {environment} else {}))
  }

  function Rewritten(entries: seq<Entry>, environment: nat, id: nat): seq<Entry> {
    seq(|entries|, i requires 0 <= i < |entries| => RewrittenEntry(entries[i], environment, id))
  }

  function Marked(candidates: seq<Candidate>, version: nat): seq<Candidate> {
    seq(|candidates|, i requires 0 <= i < |candidates| => candidates[i].(active := candidates[i].version == version))
  }

  /** Where an exception or a crash ends the activation: before either pointer is swapped, between the two,
      before the registry is written, or after that. */
  datatype Cut = Uncut | BeforePrevious | BeforeCurrent | BeforeRegistry | AfterRegistry

  predicate Admitted(s: Store, r: Request) {
    && r.environment == DEV && r.approved
    && |Matching(s.registry.entries, r.id)| == 1 && Matching(s.registry.entries, r.id)[0].root == r.root
  }

  function PreviousSwapped(s: Store, r: Request): Store {
    s.(previous := if s.current.Some? && s.current.value != r.root then s.current else s.previous)
  }

  /** The pointers are swapped before the registry is looked at. */
  function Swapped(s: Store, r: Request): Store {
    PreviousSwapped(s, r).(current := Some(r.root))
  }

  /** More than one release is active in the environment, or an entry is not a list. */
  predicate OutOfOrder(s: Store, r: Request) {
    |Prior(s.registry.entries, r.environment)| > 1 || exists e | e in s.registry.entries :: !e.typed
  }

  function Updated(g: Registry, r: Request, prior: Option<nat>): Registry {
    Registry(
      Rewritten(g.entries, r.environment, r.id), Marked(g.candidates, r.version),
      Some(r.version), if g.activeVersion != Some(r.version) then g.activeVersion else g.previousVersion,
      Some(r.id), if prior.Some? && prior != Some(r.id) then prior else g.previousId)
  }

  /** What an activation that is not cut does: whether it succeeds, and the files it leaves. */
  function Activated(s: Store, r: Request): (bool, Store) {
    if !Admitted(s, r) then (false, s)
    else
      var prior := Prior(s.registry.entries, r.environment);
      if OutOfOrder(s, r) then (false, Swapped(s, r))
      else
        (true, Swapped(s, r).(registry := Updated(s.registry, r, if prior == [] then None else Some(prior[0]))))
  }

  /** The same for one that may be cut.  After the registry only the activation record is left to be
      written, so a failure there leaves everything in effect. */
  function ActivatedUntil(s: Store, r: Request, cut: Cut): (bool, Store) {
    if !Admitted(s, r) then (false, s)
    else
      match cut
      case BeforePrevious => (false, s)
      case BeforeCurrent => (false, PreviousSwapped(s, r))
      case BeforeRegistry => (false, Swapped(s, r))
      case AfterRegistry => (false, Activated(s, r).1)
      case Uncut => Activated(s, r)
  }

  // ----- The program -----

  class DefinitionStore {
    var registry: Registry
    var current: Option<nat>
    var previous: Option<nat>

    function Contents(): Store
      reads this
    {
      Store(registry, current, previous)
    }

    constructor (s: Store)
      ensures Contents() == s
    {
      registry, current, previous := s.registry, s.current, s.previous;
    }

    method Activate(r: Request, cut: Cut) returns (ok: bool)
      modifies this
      ensures (ok, Contents()) == ActivatedUntil(old(Contents()), r, cut)
    {
      if r.environment != DEV || !r.approved {
        return false;
      }
      var matching := FindMatching(registry.entries, r.id);
      if |matching| != 1 || matching[0].root != r.root {
        return false;
      }
      if cut.BeforePrevious? {
        return false;
      }
      if current.Some? && current.value != r.root {
        previous := current;
      }
      if cut.BeforeCurrent? {
        return false;
      }
      current := Some(r.root);
      var prior := FindPrior(registry.entries, r.environment);
      if |prior| > 1 {
        return false;
      }
      var rewritten := RewriteEntries(registry.entries, r.environment, r.id);
      if rewritten.None? {
        return false;
      }
      var marked := MarkCandidates(registry.candidates, r.version);
      if cut.BeforeRegistry? {
        return false;
      }
      registry := Registry(
        rewritten.value, marked,
        Some(r.version), if registry.activeVersion != Some(r.version) then registry.activeVersion else registry.previousVersion,
        Some(r.id), if prior != [] && prior[0] != r.id then Some(prior[0]) else registry.previousId);
      return cut.Uncut?;
    }
  }

  method FindMatching(entries: seq<Entry>, id: nat) returns (matching: seq<Entry>)
    ensures matching == Matching(entries, id)
  {
    matching := [];
    var i := 0;
    while i < |entries|
      invariant 0 <= i <= |entries| && matching == Matching(entries[..i], id)
    {
      assert entries[..i + 1][..i] == entries[..i];
      if entries[i].id == id {
        matching := matching + [entries[i]];
      }
      i := i + 1;
    }
    assert entries[..i] == entries;
  }

  method FindPrior(entries: seq<Entry>, environment: nat) returns (prior: seq<nat>)
    ensures prior == Prior(entries, environment)
  {
    prior := [];
    var i := 0;
    while i < |entries|
      invariant 0 <= i <= |entries| && prior == Prior(entries[..i], environment)
    {
      assert entries[..i + 1][..i] == entries[..i];
      if environment in entries[i].active {
        prior := prior + [entries[i].id];
      }
      i := i + 1;
    }
    assert entries[..i] == entries;
  }

  /** Rewrites the list entry by entry; an entry that is not a list stops it. */
  method RewriteEntries(entries: seq<Entry>, environment: nat, id: nat) returns (rewritten: Option<seq<Entry>>)
    ensures rewritten.None? <==> exists e | e in entries :: !e.typed
    ensures rewritten.Some? ==> rewritten.value == Rewritten(entries, environment, id)
  {
    var result := entries;
    var i := 0;
    while i < |result|
      invariant 0 <= i <= |result| == |entries|
      invariant forall k | 0 <= k < i :: entries[k].typed && result[k] == RewrittenEntry(entries[k], environment, id)
      invariant forall k | i <= k < |result| :: result[k] == entries[k]
    {
      if !result[i].typed {
        assert entries[i] in entries;
        return None;
      }
      var active := result[i].active - {environment};
      if result[i].id == id {
        active := active + {environment};
      }
      result := result[i := result[i].(active := active)];
      i := i + 1;
    }
    assert result == Rewritten(entries, environment, id);
    return Some(result);
  }

  method MarkCandidates(candidates: seq<Candidate>, version: nat) returns (marked: seq<Candidate>)
    ensures marked == Marked(candidates, version)
  {
    marked := candidates;
    var i := 0;
    while i < |marked|
      invariant 0 <= i <= |marked| == |candidates|
      invariant forall k | 0 <= k < i :: marked[k] == candidates[k].(active := candidates[k].version == version)
      invariant forall k | i <= k < |marked| :: marked[k] == candidates[k]
    {
      marked := marked[i := marked[i].(active := marked[i].version == version)];
      i := i + 1;
    }
  }

  // ----- One story -----

  /** Identifiers and release roots are unique, and every entry has a list. */
  ghost predicate WellFormed(entries: seq<Entry>) {
    && (forall i, j | 0 <= i < |entries| && 0 <= j < |entries| && entries[i].id == entries[j].id :: i == j)
    && (forall i, j | 0 <= i < |entries| && 0 <= j < |entries| && entries[i].root == entries[j].root :: i == j)
    && (forall i | 0 <= i < |entries| :: entries[i].typed)
  }

  ghost predicate Registered(entries: seq<Entry>, id: nat, root: nat) {
    exists i | 0 <= i < |entries| :: entries[i].id == id && entries[i].root == root
  }

  /** A pointer resolves to the release that the registry names. */
  ghost predicate Names(entries: seq<Entry>, id: Option<nat>, pointer: Option<nat>) {
    && (id.Some? <==> pointer.Some?)
    && (id.Some? ==> Registered(entries, id.value, pointer.value))
  }

  /** Registry and pointers agree, and exactly the active release is active in the environment. */
  ghost predicate Agrees(s: Store) {
    var g := s.registry;
    && WellFormed(g.entries)
    && Names(g.entries, g.activeId, s.current) && Names(g.entries, g.previousId, s.previous)
    && (forall i | 0 <= i < |g.entries| :: DEV in g.entries[i].active <==> g.activeId == Some(g.entries[i].id))
    && (g.activeId.None? ==> g.previousId.None?)
  }

  lemma {:induction false} PriorIs(entries: seq<Entry>, activeId: Option<nat>)
    requires WellFormed(entries)
    requires forall i | 0 <= i < |entries| :: DEV in entries[i].active <==> activeId == Some(entries[i].id)
    ensures Prior(entries, DEV) ==
              if activeId.Some? && (exists i | 0 <= i < |entries| :: entries[i].id == activeId.value) then [activeId.value] else []
  {
    if entries != [] {
      var n := |entries| - 1;
      var rest := entries[..n];
      PriorIs(rest, activeId);
      assert forall i | 0 <= i < n :: rest[i] == entries[i];
      assert (exists i | 0 <= i < |entries| :: activeId.Some? && entries[i].id == activeId.value) <==>
             || (exists i | 0 <= i < n :: activeId.Some? && rest[i].id == activeId.value)
             || (activeId.Some? && entries[n].id == activeId.value);
    }
  }

  lemma {:induction false} MatchingIs(entries: seq<Entry>, id: nat)
    ensures forall e | e in Matching(entries, id) :: e in entries && e.id == id
  {
    if entries != [] {
      MatchingIs(entries[..|entries| - 1], id);
    }
  }

  /** From an agreeing store the check after the swap never fails, so an activation that is admitted and
      not cut succeeds, and what it takes for the prior release is the active one. */
  lemma AdmittedSucceeds(s: Store, r: Request)
    requires Agrees(s)
    ensures Activated(s, r).0 <==> Admitted(s, r)
    ensures Admitted(s, r) ==>
              Activated(s, r).1 == Swapped(s, r).(registry := Updated(s.registry, r, s.registry.activeId))
  {
    PriorIs(s.registry.entries, s.registry.activeId);
  }

  lemma RewrittenKeeps(entries: seq<Entry>, id: nat)
    requires WellFormed(entries)
    ensures WellFormed(Rewritten(entries, DEV, id))
    ensures forall x, root :: Registered(Rewritten(entries, DEV, id), x, root) <==> Registered(entries, x, root)
  {
    var after := Rewritten(entries, DEV, id);
    assert forall i | 0 <= i < |entries| ::
             after[i].id == entries[i].id && after[i].root == entries[i].root && after[i].typed == entries[i].typed;
    forall x, root ensures Registered(after, x, root) <==> Registered(entries, x, root) {
      if Registered(after, x, root) {
        var i :| 0 <= i < |after| && after[i].id == x && after[i].root == root;
        assert entries[i].id == x && entries[i].root == root;
      }
      if Registered(entries, x, root) {
        var i :| 0 <= i < |entries| && entries[i].id == x && entries[i].root == root;
        assert after[i].id == x && after[i].root == root;
      }
    }
  }

  /** Two registered releases are the same by identifier exactly when they are the same by root. */
  lemma SameRelease(entries: seq<Entry>, a: nat, rootA: nat, b: nat, rootB: nat)
    requires WellFormed(entries) && Registered(entries, a, rootA) && Registered(entries, b, rootB)
    ensures a == b <==> rootA == rootB
  {
    var i :| 0 <= i < |entries| && entries[i].id == a && entries[i].root == rootA;
    var j :| 0 <= j < |entries| && entries[j].id == b && entries[j].root == rootB;
  }

  lemma AdmittedRegistered(s: Store, r: Request)
    requires Admitted(s, r)
    ensures Registered(s.registry.entries, r.id, r.root)
  {
    MatchingIs(s.registry.entries, r.id);
    var e := Matching(s.registry.entries, r.id)[0];
    assert e in s.registry.entries;
  }

  /** Every activation that is not cut, successful or not, keeps registry and pointers in agreement. */
  lemma ActivationAgrees(s: Store, r: Request)
    requires Agrees(s)
    ensures Agrees(Activated(s, r).1)
    ensures Activated(s, r).0 ==> Activated(s, r).1.registry.activeId == Some(r.id)
  {
    hide Matching, Prior, Admitted, Activated;
    AdmittedSucceeds(s, r);
    if Admitted(s, r) {
      AdmittedRegistered(s, r);
      var g := s.registry;
      RewrittenKeeps(g.entries, r.id);
      if g.activeId.Some? {
        SameRelease(g.entries, g.activeId.value, s.current.value, r.id, r.root);
      }
      RequestIsDev(s, r);
      var after := Rewritten(g.entries, r.environment, r.id);
      forall i | 0 <= i < |after| ensures DEV in after[i].active <==> Some(r.id) == Some(after[i].id) {
        assert after[i] == RewrittenEntry(g.entries[i], r.environment, r.id);
      }
    } else {
      RefusedKeeps(s, r);
    }
  }

  lemma RequestIsDev(s: Store, r: Request)
    requires Admitted(s, r)
    ensures r.environment == DEV
  {
  }

  lemma RefusedKeeps(s: Store, r: Request)
    requires !Admitted(s, r)
    ensures Activated(s, r) == (false, s)
  {
  }

  function Replay(s: Store, requests: seq<Request>): Store
    decreases |requests|
  {
    if requests == [] then s else Replay(Activated(s, requests[0]).1, requests[1..])
  }

  predicate SameElsewhere(a: seq<Entry>, b: seq<Entry>) {
    |a| == |b| && forall i | 0 <= i < |a| :: a[i].id == b[i].id && a[i].active - {DEV} == b[i].active - {DEV}
  }

  /** Over every history of uncut requests from an agreeing store: registry and pointers agree, the active
      release is the only one active in the environment, and no other environment's membership moves. */
  lemma {:induction false} HistoryAgrees(s: Store, requests: seq<Request>)
    requires Agrees(s)
    ensures Agrees(Replay(s, requests))
    ensures SameElsewhere(s.registry.entries, Replay(s, requests).registry.entries)
    decreases |requests|
  {
    hide Agrees, Activated;
    if requests != [] {
      var s1 := Activated(s, requests[0]).1;
      ActivationAgrees(s, requests[0]);
      OthersUntouched(s, requests[0]);
      HistoryAgrees(s1, requests[1..]);
    }
  }

  lemma OthersUntouched(s: Store, r: Request)
    ensures SameElsewhere(s.registry.entries, Activated(s, r).1.registry.entries)
  {
    hide Matching, Prior;
  }

  /** Activating the active release again changes nothing. */
  lemma ReactivationIsNoOp(s: Store, r: Request)
    requires Activated(s, r).0
    ensures Activated(Activated(s, r).1, r) == (true, Activated(s, r).1)
  {
    hide Prior, Matching;
    var t := Activated(s, r).1;
    var entries := s.registry.entries;
    PriorRewritten(entries, r.environment, r.id);
    MatchingRewritten(entries, r.environment, r.id, r.id);
    RewrittenTwice(entries, r.environment, r.id, r.id);
    assert forall e | e in t.registry.entries :: e.typed by {
      forall i | 0 <= i < |entries| ensures t.registry.entries[i].typed { assert entries[i] in entries; }
    }
    assert Marked(t.registry.candidates, r.version) == t.registry.candidates;
    var prior := Prior(t.registry.entries, r.environment);
    assert prior[0] in prior;
  }

  /** After the rewrite the selected release is the only one active. */
  lemma {:induction false} PriorRewritten(entries: seq<Entry>, environment: nat, id: nat)
    ensures var prior := Prior(Rewritten(entries, environment, id), environment);
            |prior| == |Matching(entries, id)| && forall x | x in prior :: x == id
  {
    if entries != [] {
      var n := |entries| - 1;
      PriorRewritten(entries[..n], environment, id);
      assert Rewritten(entries, environment, id)[..n] == Rewritten(entries[..n], environment, id);
    }
  }

  /** Only the last rewrite counts. */
  lemma RewrittenTwice(entries: seq<Entry>, environment: nat, id: nat, id': nat)
    ensures Rewritten(Rewritten(entries, environment, id), environment, id') == Rewritten(entries, environment, id')
  {
    var once := Rewritten(entries, environment, id);
    var twice := Rewritten(once, environment, id');
    forall i | 0 <= i < |entries| ensures twice[i] == Rewritten(entries, environment, id')[i] {
      assert once[i] == RewrittenEntry(entries[i], environment, id);
      assert once[i].active - {environment} == entries[i].active - {environment};
    }
  }

  /** The rewrite for the release that is active already. */
  lemma RewrittenActive(s: Store, id: nat)
    requires Agrees(s) && s.registry.activeId == Some(id)
    ensures Rewritten(s.registry.entries, DEV, id) == s.registry.entries
  {
    var entries := s.registry.entries;
    forall i | 0 <= i < |entries| ensures Rewritten(entries, DEV, id)[i] == entries[i] {
      assert DEV in entries[i].active <==> entries[i].id == id;
      assert RewrittenEntry(entries[i], DEV, id).active == entries[i].active;
    }
  }

  lemma {:induction false} MatchingRewritten(entries: seq<Entry>, environment: nat, id: nat, x: nat)
    ensures |Matching(Rewritten(entries, environment, id), x)| == |Matching(entries, x)|
    ensures forall i | 0 <= i < |Matching(entries, x)| ::
              Matching(Rewritten(entries, environment, id), x)[i].root == Matching(entries, x)[i].root
  {
    if entries != [] {
      var n := |entries| - 1;
      MatchingRewritten(entries[..n], environment, id, x);
      assert Rewritten(entries, environment, id)[..n] == Rewritten(entries[..n], environment, id);
    }
  }

  /** Activating another release and then the first one again restores every entry and the pointer. */
  lemma GoingBackRestores(s: Store, there: Request, back: Request)
    requires Agrees(s) && s.registry.activeId == Some(back.id)
    requires Activated(s, there).0 && Activated(Activated(s, there).1, back).0
    ensures
      var t := Activated(Activated(s, there).1, back).1;
      && t.registry.entries == s.registry.entries && t.current == s.current && t.registry.activeId == s.registry.activeId
      && (there.id != back.id ==> t.registry.previousId == Some(there.id))
  {
    hide Prior, Matching;
    var u := Activated(s, there).1;
    AdmittedSucceeds(s, there);
    ActivationAgrees(s, there);
    AdmittedSucceeds(u, back);
    ActivationAgrees(u, back);
    var t := Activated(u, back).1;
    RequestIsDev(s, there);
    RequestIsDev(u, back);
    RewrittenTwice(s.registry.entries, DEV, there.id, back.id);
    RewrittenActive(s, back.id);
    SameRelease(s.registry.entries, back.id, s.current.value, back.id, t.current.value);
  }

  // ----- Where the story breaks -----

  /** A failed activation has moved a pointer exactly when it was admitted, the pointer was not there yet,
      and it failed after the swap: at a cut, or because the registry is out of order, which is only
      checked then. */
  lemma FailureAfterSwap(s: Store, r: Request, cut: Cut)
    ensures
      var (ok, t) := ActivatedUntil(s, r, cut);
      !ok && (t.current != s.current || t.previous != s.previous) <==>
        && Admitted(s, r) && s.current != Some(r.root)
        && match cut
           case BeforePrevious => false
           case BeforeCurrent => s.current.Some? && s.previous != s.current
           case Uncut => OutOfOrder(s, r)
           case _ => true
  {
    hide Prior, Matching;
  }

  /** The cut came before a pointer had moved, or the pointers were there already. */
  predicate Unmoved(s: Store, r: Request, cut: Cut) {
    match cut
    case BeforePrevious => true
    case BeforeCurrent => s.current.None? || s.current == Some(r.root) || s.previous == s.current
    case _ => s.current == Some(r.root)
  }

  /** Registry and pointers agree after a cut exactly if no pointer had moved or the registry had been
      written. */
  lemma CutAgreesIff(s: Store, r: Request, cut: Cut)
    requires Agrees(s)
    ensures Agrees(ActivatedUntil(s, r, cut).1) <==>
              !Admitted(s, r) || Unmoved(s, r, cut) || cut.AfterRegistry? || cut.Uncut?
  {
    hide Matching, Prior, Admitted, Activated;
    var g := s.registry;
    ActivationAgrees(s, r);
    if Admitted(s, r) {
      AdmittedRegistered(s, r);
      var t := ActivatedUntil(s, r, cut).1;
      if cut.BeforeCurrent? && !Unmoved(s, r, cut) && Agrees(t) {
        SameRelease(g.entries, g.activeId.value, s.current.value, g.previousId.value, s.previous.value);
        SameRelease(g.entries, g.activeId.value, s.current.value, g.previousId.value, t.previous.value);
      }
      if cut.BeforeRegistry? && !Unmoved(s, r, cut) && Agrees(t) {
        SameRelease(g.entries, g.activeId.value, s.current.value, g.activeId.value, r.root);
      }
    }
  }

  // ----- And how it is mended -----

  /** The same request again and again, cut each time. */
  function Attempts(s: Store, r: Request, cuts: seq<Cut>): Store
    decreases |cuts|
  {
    if cuts == [] then s else Attempts(ActivatedUntil(s, r, cuts[0]).1, r, cuts[1..])
  }

  lemma AgainAfterCut(s: Store, r: Request, cut: Cut)
    requires Activated(s, r).0
    ensures Activated(ActivatedUntil(s, r, cut).1, r) == Activated(s, r)
  {
    hide Prior, Matching;
    ReactivationIsNoOp(s, r);
  }

  /** However often a request was cut, and wherever, making it once more gives what it would have given at
      once. */
  lemma {:induction false} ReplayRepairs(s: Store, r: Request, cuts: seq<Cut>)
    requires Activated(s, r).0
    ensures Activated(Attempts(s, r, cuts), r) == Activated(s, r)
    decreases |cuts|
  {
    hide Activated;
    if cuts != [] {
      AgainAfterCut(s, r, cuts[0]);
      ReplayRepairs(ActivatedUntil(s, r, cuts[0]).1, r, cuts[1..]);
    }
  }

  datatype Retried = Retried(request: Request, cuts: seq<Cut>)

  function Requests(history: seq<Retried>): seq<Request> {
    seq(|history|, i requires 0 <= i < |history| => history[i].request)
  }

  function ReplayRetried(s: Store, history: seq<Retried>): Store
    decreases |history|
  {
    if history == [] then s
    else ReplayRetried(Activated(Attempts(s, history[0].request, history[0].cuts), history[0].request).1, history[1..])
  }

  /** So a history in which every cut request is repeated until it is through is, from an agreeing store,
      the history of the uncut requests. */
  lemma {:induction false} RetriedHistoryAgrees(s: Store, history: seq<Retried>)
    requires Agrees(s)
    ensures ReplayRetried(s, history) == Replay(s, Requests(history)) && Agrees(ReplayRetried(s, history))
    decreases |history|
  {
    hide Agrees, Activated;
    if history != [] {
      var h := history[0];
      AdmittedSucceeds(s, h.request);
      if Admitted(s, h.request) { ReplayRepairs(s, h.request, h.cuts); } else { RefusedAttempts(s, h.request, h.cuts); }
      ActivationAgrees(s, h.request);
      RetriedHistoryAgrees(Activated(s, h.request).1, history[1..]);
      assert Requests(history)[1..] == Requests(history[1..]);
    }
  }

  lemma {:induction false} RefusedAttempts(s: Store, r: Request, cuts: seq<Cut>)
    requires !Admitted(s, r)
    ensures Attempts(s, r, cuts) == s
    decreases |cuts|
  {
    if cuts != [] { RefusedAttempts(s, r, cuts[1..]); }
  }

  /** Where a cut has left registry and pointers apart, another request may also mend it: with only
      `previous` swapped every one but the release still active, which leaves `previous` alone; with both
      swapped only the cut one itself, or going back to the active release if the cut one was the
      release before it. */
  lemma OtherRepairsIff(s: Store, r: Request, cut: Cut, other: Request)
    requires Agrees(s) && Admitted(s, r) && !Unmoved(s, r, cut) && (cut.BeforeCurrent? || cut.BeforeRegistry?)
    requires Admitted(s, other)
    ensures
      var t := ActivatedUntil(s, r, cut).1;
      && Activated(t, other).0
      && (Agrees(Activated(t, other).1) <==>
            if cut.BeforeCurrent? then s.registry.activeId != Some(other.id)
            else other.id == r.id || (s.registry.activeId == Some(other.id) && s.registry.previousId == Some(r.id)))
  {
    hide Matching, Prior, Agrees, Rewritten, Marked;
    var g := s.registry;
    var t := ActivatedUntil(s, r, cut).1;
    AdmittedSucceeds(s, other);
    ActivationAgrees(s, other);
    var u := Activated(s, other).1;
    assert Activated(t, other).1 == u.(previous := PreviousSwapped(t, other).previous);
    PreviousIs(u, PreviousSwapped(t, other).previous);
    ByRoot(s, r);
    ByRoot(s, other);
    assert other.id == r.id <==> other.root == r.root by {
      AdmittedRegistered(s, r);
      AdmittedRegistered(s, other);
      assert WellFormed(g.entries) by { EntriesFormed(s); }
      SameRelease(g.entries, other.id, other.root, r.id, r.root);
    }
  }

  lemma EntriesFormed(s: Store)
    requires Agrees(s)
    ensures WellFormed(s.registry.entries)
  {
  }

  /** In an agreeing store the registry fixes what `previous` is. */
  lemma PreviousIs(s: Store, previous: Option<nat>)
    requires Agrees(s)
    ensures Agrees(s.(previous := previous)) <==> previous == s.previous
  {
    var g := s.registry;
    if Agrees(s.(previous := previous)) && previous.Some? {
      SameRelease(g.entries, g.previousId.value, previous.value, g.previousId.value, s.previous.value);
    }
  }

  /** An admitted release is the active or the previous one by identifier exactly if it is by root. */
  lemma ByRoot(s: Store, r: Request)
    requires Agrees(s) && Admitted(s, r)
    ensures s.registry.activeId == Some(r.id) <==> s.current == Some(r.root)
    ensures s.registry.previousId == Some(r.id) <==> s.previous == Some(r.root)
    ensures s.current.None? ==> s.previous.None?
  {
    hide Matching, Admitted;
    var g := s.registry;
    AdmittedRegistered(s, r);
    if g.activeId.Some? { SameRelease(g.entries, g.activeId.value, s.current.value, r.id, r.root); }
    if g.previousId.Some? { SameRelease(g.entries, g.previousId.value, s.previous.value, r.id, r.root); }
  }

  /** `versions` is the version that each release carries. */
  ghost predicate VersionsTell(g: Registry, versions: nat -> nat) {
    && (g.activeId.Some? ==> g.activeVersion == Some(versions(g.activeId.value)))
    && (g.previousId.Some? ==> g.previousVersion == Some(versions(g.previousId.value)))
  }

  /** `previous_version` is updated when the version changes, `previous_release_id` when the release does.
      They keep telling the same story unless a release replaces another one of its own version. */
  lemma VersionsAgreeIff(s: Store, r: Request, versions: nat -> nat)
    requires Agrees(s) && VersionsTell(s.registry, versions) && Activated(s, r).0 && r.version == versions(r.id)
    ensures
      var a := s.registry.activeId;
      VersionsTell(Activated(s, r).1.registry, versions) <==>
        (a.Some? && a.value != r.id && versions(a.value) == r.version ==> s.registry.previousVersion == s.registry.activeVersion)
  {
    hide Prior, Matching, Agrees;
    AdmittedSucceeds(s, r);
    NoPreviousWithoutActive(s);
  }

  lemma NoPreviousWithoutActive(s: Store)
    requires Agrees(s)
    ensures s.registry.activeId.None? ==> s.registry.previousId.None?
  {
  }
}
