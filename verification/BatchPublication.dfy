// Bulk publication with recursive isolation of failing targets
// (packages/document-update/src/index.ts, publishPreparedBatch). Everything the database
// and the clock may do to one run is an oracle, so a statement about every oracle is a
// statement about every schedule of faults and of other sessions.
module BatchPublication {
  import opened Json
  import opened RebuildRows
  import opened RebuildProtocol

  /** How one publication transaction may end, poisoned targets aside. `ConfirmedAbort`
      is a deadlock or serialization failure; `LocalFailure` an error that counts as local to a
      target and need not come back, such as a data exception or a wrong bulk
      acknowledgement; `Refused` any other rolled-back error; `Unconfirmed` a failure after the
      callback returned, committed or not. */
  datatype Fault = NoFault | ConfirmedAbort | LocalFailure | Refused | Unconfirmed(committed: bool) | LateCommit

  /** A cleanup statement skips locked rows; when it fails it changes nothing. */
  datatype Cleanup = Cleaned(locked: set<nat>) | CleanupFailed

  /** `poison`: targets whose publication always fails by itself. `fault`, `expired` and
      `interfere` (what other sessions do first) are indexed by transaction, `cleanup` and
      `between` (what they do before it) by cleanup statement. */
  datatype Oracle = Oracle(
    poison: set<nat>,
    fault: nat -> Fault,
    expired: nat -> bool,
    interfere: (nat, Store) -> Store,
    cleanup: nat -> Cleanup,
    between: (nat, Store) -> Store)

  datatype Progress = Progress(
    store: Store, attempts: nat, cleanups: nat, retriedAbort: bool, stopped: bool,
    published: seq<Claim>, stale: seq<Claim>, failed: seq<Claim>)

  function Keep(group: seq<Claim>, wanted: Claim -> bool): seq<Claim> {
    if group == [] then [] else
      Keep(group[..|group| - 1], wanted) + if wanted(group[|group| - 1]) then [group[|group| - 1]] else []
  }

  function Eligible(s: Store, group: seq<Claim>): seq<Claim> { Keep(group, c => Owns(s, c)) }
  function Stale(s: Store, group: seq<Claim>): seq<Claim> { Keep(group, c => !Owns(s, c)) }

  predicate Poisoned(group: seq<Claim>, poison: set<nat>) {
    exists i :: 0 <= i < |group| && group[i].target in poison
  }

  datatype Outcome = Committed(late: bool) | Unknown(committed: bool) | Aborted | TargetLocal | Fatal

  /** A transaction whose callback completes has published every eligible target. */
  function OutcomeOf(fault: Fault, poisoned: bool): Outcome {
    match fault
    case ConfirmedAbort => Aborted
    case LocalFailure => TargetLocal
    case Refused => Fatal
    case NoFault => if poisoned then TargetLocal else Committed(false)
    case LateCommit => if poisoned then TargetLocal else Committed(true)
    case Unconfirmed(committed) => if poisoned then TargetLocal else Unknown(committed)
  }

  function Fail(o: Oracle, p: Progress, group: seq<Claim>): Progress {
    var met := o.between(p.cleanups, p.store);
    var q := p.(cleanups := p.cleanups + 1, failed := p.failed + group);
    match o.cleanup(p.cleanups)
    case Cleaned(locked) => q.(store := FailAll(met, group, locked))
    case CleanupFailed => q.(store := met, stopped := true)
  }

  function Stop(p: Progress): Progress { p.(stopped := true) }

  function Middle(group: seq<Claim>): nat { |group| / 2 }

  /** A transaction starts: other sessions have acted, its rows are now locked. */
  function Begin(o: Oracle, p: Progress): Progress {
    p.(store := o.interfere(p.attempts, p.store), attempts := p.attempts + 1)
  }

  function OutcomeIn(o: Oracle, p: Progress, group: seq<Claim>): Outcome {
    OutcomeOf(o.fault(p.attempts), Poisoned(Eligible(Begin(o, p).store, group), o.poison))
  }

  function Commit(p: Progress, group: seq<Claim>, late: bool): Progress {
    p.(store := PublishAll(p.store, Eligible(p.store, group)), stopped := late,
       published := p.published + Eligible(p.store, group), stale := p.stale + Stale(p.store, group))
  }

  /** The acknowledgement is lost: the commit may have happened all the same. */
  function Doubtful(p: Progress, group: seq<Claim>, committed: bool): Progress {
    if committed then p.(store := PublishAll(p.store, Eligible(p.store, group))) else p
  }

  /** One call of `attempt`. It terminates because a call either uses up the only retry
      or works on a smaller group. */
  function Attempt(o: Oracle, limit: nat, p: Progress, group: seq<Claim>): (q: Progress)
    requires group != []
    ensures p.retriedAbort ==> q.retriedAbort
    decreases if p.retriedAbort then 0 else 1, |group|
  {
    if p.stopped then Fail(o, p, group)
    else if p.attempts >= limit || o.expired(p.attempts) then Fail(o, Stop(p), group)
    else
      var begun := Begin(o, p);
      match OutcomeIn(o, p, group)
      case Committed(late) => Commit(begun, group, late)
      case Unknown(committed) =>
        Fail(o, Stop(Doubtful(begun, group, committed)), group)
      case Aborted =>
        if p.retriedAbort then Fail(o, Stop(begun), group)
        else Attempt(o, limit, begun.(retriedAbort := true), group)
      case TargetLocal =>
        if |group| == 1 then Fail(o, begun, group)
        else
          var first := Attempt(o, limit, begun, group[..Middle(group)]);
          Attempt(o, limit, first, group[Middle(group)..])
      case Fatal => Fail(o, Stop(begun), group)
  }

  // ---- The imperative form ----

  class Publisher {
    const oracle: Oracle
    var store: Store
    var attempts: nat
    var cleanups: nat
    var retriedAbort: bool
    var stopped: bool
    var published: seq<Claim>
    var stale: seq<Claim>
    var failed: seq<Claim>

    function Now(): Progress
      reads this
    {
      Progress(store, attempts, cleanups, retriedAbort, stopped, published, stale, failed)
    }

    constructor (oracle: Oracle, store: Store)
      ensures this.oracle == oracle
      ensures Now() == Progress(store, 0, 0, false, false, [], [], [])
    {
      this.oracle, this.store := oracle, store;
      attempts, cleanups, retriedAbort, stopped := 0, 0, false, false;
      published, stale, failed := [], [], [];
    }

    method FailGroup(group: seq<Claim>)
      modifies this
      ensures Now() == Fail(oracle, old(Now()), group)
    {
      store := oracle.between(cleanups, store);
      match oracle.cleanup(cleanups) {
        case Cleaned(locked) => store := FailAll(store, group, locked);
        case CleanupFailed => stopped := true;
      }
      cleanups := cleanups + 1;
      failed := failed + group;
    }

    /** The transaction itself, with whatever it committed. */
    method Transaction(group: seq<Claim>) returns (outcome: Outcome)
      modifies this
      ensures outcome == OutcomeIn(oracle, old(Now()), group)
      ensures
        var begun := Begin(oracle, old(Now()));
        Now() == match outcome
          case Committed(late) => Commit(begun, group, late)
          case Unknown(committed) => Doubtful(begun, group, committed)
          case _ => begun
    {
      store := oracle.interfere(attempts, store);
      var eligible := Eligible(store, group);
      outcome := OutcomeOf(oracle.fault(attempts), Poisoned(eligible, oracle.poison));
      attempts := attempts + 1;
      match outcome {
        case Committed(late) =>
          published := published + eligible;
          stale := stale + Stale(store, group);
          store := PublishAll(store, eligible);
          stopped := late;
        case Unknown(true) =>
          store := PublishAll(store, eligible);
        case _ =>
      }
    }

    method AttemptGroup(limit: nat, group: seq<Claim>)
      requires group != []
      modifies this
      ensures Now() == Attempt(oracle, limit, old(Now()), group)
      decreases if retriedAbort then 0 else 1, |group|
    {
      if stopped {
        FailGroup(group);
        return;
      }
      if attempts >= limit || oracle.expired(attempts) {
        stopped := true;
        FailGroup(group);
        return;
      }
      var outcome := Transaction(group);
      match outcome {
        case Committed(late) =>
        case Unknown(committed) =>
          stopped := true;
          FailGroup(group);
        case Aborted =>
          if retriedAbort {
            stopped := true;
            FailGroup(group);
          } else {
            retriedAbort := true;
            AttemptGroup(limit, group);
          }
        case TargetLocal =>
          if |group| == 1 {
            FailGroup(group);
          } else {
            AttemptGroup(limit, group[..Middle(group)]);
            AttemptGroup(limit, group[Middle(group)..]);
          }
        case Fatal =>
          stopped := true;
          FailGroup(group);
      }
    }
  }

  predicate HasDuplicates(candidates: seq<Claim>) {
    exists i, j :: 0 <= i < j < |candidates| && candidates[i].target == candidates[j].target
  }

  function Start(store: Store): Progress { Progress(store, 0, 0, false, false, [], [], []) }

  /** The report and final store of a whole batch: oversized batches and duplicates are
      refused, and the attempt limit is twice the number of candidates. */
  method PublishPreparedBatch(oracle: Oracle, store: Store, candidates: seq<Claim>) returns (result: Option<Progress>)
    ensures result.None? <==> |candidates| > SQL_TARGET_BATCH_SIZE || HasDuplicates(candidates)
    ensures result.Some? && candidates == [] ==> result.value == Start(store)
    ensures result.Some? && candidates != [] ==>
      result.value == Attempt(oracle, 2 * |candidates|, Start(store), candidates)
  {
    if |candidates| > SQL_TARGET_BATCH_SIZE { return None; }
    var identities: set<nat> := {};
    for i := 0 to |candidates|
      invariant forall t :: t in identities <==> exists k :: 0 <= k < i && candidates[k].target == t
      invariant forall k, m :: 0 <= k < m < i ==> candidates[k].target != candidates[m].target
    {
      if candidates[i].target in identities { return None; }
      identities := identities + {candidates[i].target};
    }
    var publisher := new Publisher(oracle, store);
    if candidates != [] { publisher.AttemptGroup(2 * |candidates|, candidates); }
    result := Some(publisher.Now());
  }

  // ---- Bookkeeping lemmas ----

  lemma {:induction false} KeepConcat(a: seq<Claim>, b: seq<Claim>, wanted: Claim -> bool)
    ensures Keep(a + b, wanted) == Keep(a, wanted) + Keep(b, wanted)
    decreases |b|
  {
    if b == [] {
      assert a + b == a;
    } else {
      var init := b[..|b| - 1];
      assert (a + b)[..|a + b| - 1] == a + init;
      KeepConcat(a, init, wanted);
    }
  }

  lemma {:induction false} KeepSame(group: seq<Claim>, f: Claim -> bool, g: Claim -> bool)
    requires forall i :: 0 <= i < |group| ==> f(group[i]) == g(group[i])
    ensures Keep(group, f) == Keep(group, g)
  {
    if group != [] { KeepSame(group[..|group| - 1], f, g); }
  }

  lemma {:induction false} KeepMembers(group: seq<Claim>, wanted: Claim -> bool, c: Claim)
    ensures c in Keep(group, wanted) <==> c in group && wanted(c)
  {
    if group != [] {
      KeepMembers(group[..|group| - 1], wanted, c);
      assert group == group[..|group| - 1] + [group[|group| - 1]];
    }
  }

  /** Every claim of a group is either eligible or stale. */
  lemma {:induction false} OwnedOrStale(s: Store, group: seq<Claim>, c: Claim)
    ensures Count(Eligible(s, group), c) + Count(Stale(s, group), c) == Count(group, c)
  {
    if group != [] {
      var init, last := group[..|group| - 1], group[|group| - 1];
      OwnedOrStale(s, init, c);
      KeepLast(s, group);
      CountAppend(Eligible(s, init), last, c);
      CountAppend(Stale(s, init), last, c);
    }
  }

  lemma KeepLast(s: Store, group: seq<Claim>)
    requires group != []
    ensures
      var init, last := group[..|group| - 1], group[|group| - 1];
      && Eligible(s, group) == (if Owns(s, last) then Eligible(s, init) + [last] else Eligible(s, init))
      && Stale(s, group) == (if Owns(s, last) then Stale(s, init) else Stale(s, init) + [last])
  {
    var init, last := group[..|group| - 1], group[|group| - 1];
    assert Eligible(s, init) + [] == Eligible(s, init) && Stale(s, init) + [] == Stale(s, init);
  }

  lemma CountAppend(claims: seq<Claim>, x: Claim, c: Claim)
    ensures Count(claims + [x], c) == Count(claims, c) + if x == c then 1 else 0
  {
    assert (claims + [x])[..|claims|] == claims;
  }

  lemma Halves(group: seq<Claim>)
    ensures group == group[..Middle(group)] + group[Middle(group)..]
  {}

  // ---- Every candidate is reported exactly once, whatever happens ----

  function Count(claims: seq<Claim>, c: Claim): nat {
    if claims == [] then 0
    else Count(claims[..|claims| - 1], c) + if claims[|claims| - 1] == c then 1 else 0
  }

  lemma {:induction false} CountConcat(a: seq<Claim>, b: seq<Claim>, c: Claim)
    ensures Count(a + b, c) == Count(a, c) + Count(b, c)
  {
    if b == [] {
      assert a + b == a;
    } else {
      CountConcat(a, b[..|b| - 1], c);
      assert (a + b)[..|a + b| - 1] == a + b[..|b| - 1];
    }
  }

  function Reported(p: Progress, c: Claim): nat {
    Count(p.published, c) + Count(p.stale, c) + Count(p.failed, c)
  }

  lemma FailReports(o: Oracle, p: Progress, group: seq<Claim>, c: Claim)
    ensures Reported(Fail(o, p, group), c) == Reported(p, c) + Count(group, c)
  {
    CountConcat(p.failed, group, c);
  }

  lemma CommitReports(p: Progress, group: seq<Claim>, late: bool, c: Claim)
    ensures Reported(Commit(p, group, late), c) == Reported(p, c) + Count(group, c)
  {
    CountConcat(p.published, Eligible(p.store, group), c);
    CountConcat(p.stale, Stale(p.store, group), c);
    OwnedOrStale(p.store, group, c);
  }

  lemma HalvesCount(group: seq<Claim>, c: Claim)
    ensures Count(group, c) == Count(group[..Middle(group)], c) + Count(group[Middle(group)..], c)
  {
    Halves(group);
    CountConcat(group[..Middle(group)], group[Middle(group)..], c);
  }

  /** The call neither retries nor splits. */
  predicate Ends(o: Oracle, limit: nat, p: Progress, group: seq<Claim>) {
    p.stopped || p.attempts >= limit || o.expired(p.attempts)
    || match OutcomeIn(o, p, group)
       case Aborted => p.retriedAbort
       case TargetLocal => |group| == 1
       case _ => true
  }

  lemma EndingReports(o: Oracle, limit: nat, p: Progress, group: seq<Claim>, c: Claim)
    requires group != [] && Ends(o, limit, p, group)
    ensures Reported(Attempt(o, limit, p, group), c) == Reported(p, c) + Count(group, c)
  {
    var begun := Begin(o, p);
    if p.stopped {
      FailReports(o, p, group, c);
    } else if p.attempts >= limit || o.expired(p.attempts) {
      FailReports(o, Stop(p), group, c);
    } else {
      match OutcomeIn(o, p, group) {
        case Committed(late) => CommitReports(begun, group, late, c);
        case Unknown(committed) => FailReports(o, Stop(Doubtful(begun, group, committed)), group, c);
        case TargetLocal => FailReports(o, begun, group, c);
        case _ => FailReports(o, Stop(begun), group, c);
      }
    }
  }

  /** No schedule of faults loses or repeats a candidate in the report. */
  lemma {:induction false} EveryCandidateReportedOnce(o: Oracle, limit: nat, p: Progress, group: seq<Claim>, c: Claim)
    requires group != []
    ensures Reported(Attempt(o, limit, p, group), c) == Reported(p, c) + Count(group, c)
    decreases if p.retriedAbort then 0 else 1, |group|
  {
    if Ends(o, limit, p, group) {
      EndingReports(o, limit, p, group, c);
    } else {
      var begun := Begin(o, p);
      if OutcomeIn(o, p, group).Aborted? {
        EveryCandidateReportedOnce(o, limit, begun.(retriedAbort := true), group, c);
      } else {
        HalvesCount(group, c);
        var first := Attempt(o, limit, begun, group[..Middle(group)]);
        EveryCandidateReportedOnce(o, limit, begun, group[..Middle(group)], c);
        EveryCandidateReportedOnce(o, limit, first, group[Middle(group)..], c);
      }
    }
  }

  // ---- The attempt budget is never reached ----

  function RetryLeft(p: Progress): nat { if p.retriedAbort then 0 else 1 }

  /** A group of n starts at most 2n-1 transactions and one retry, so with the limit the
      batch sets for itself the budget branch is dead: any larger limit gives the same
      run. */
  lemma {:induction false} BudgetSuffices(o: Oracle, limit: nat, larger: nat, p: Progress, group: seq<Claim>)
    requires group != [] && limit <= larger
    requires p.attempts + 2 * |group| - 1 + RetryLeft(p) <= limit
    ensures
      var q := Attempt(o, limit, p, group);
      && q.attempts + RetryLeft(q) <= p.attempts + 2 * |group| - 1 + RetryLeft(p)
      && q == Attempt(o, larger, p, group)
    decreases if p.retriedAbort then 0 else 1, |group|
  {
    if !p.stopped && !o.expired(p.attempts) {
      var begun := Begin(o, p);
      match OutcomeIn(o, p, group) {
        case Aborted =>
          if !p.retriedAbort { BudgetSuffices(o, limit, larger, begun.(retriedAbort := true), group); }
        case TargetLocal =>
          if |group| > 1 {
            var first := Attempt(o, limit, begun, group[..Middle(group)]);
            BudgetSuffices(o, limit, larger, begun, group[..Middle(group)]);
            BudgetSuffices(o, limit, larger, first, group[Middle(group)..]);
          }
        case _ =>
      }
    }
  }

  lemma BatchStartsAtMostTwicePerCandidate(o: Oracle, store: Store, candidates: seq<Claim>, larger: nat)
    requires candidates != [] && 2 * |candidates| <= larger
    ensures
      var q := Attempt(o, 2 * |candidates|, Start(store), candidates);
      q.attempts <= 2 * |candidates| && q == Attempt(o, larger, Start(store), candidates)
  {
    BudgetSuffices(o, 2 * |candidates|, larger, Start(store), candidates);
  }

  // ---- Exact isolation when nothing else disturbs the run ----

  ghost predicate Distinct(group: seq<Claim>) {
    forall i, j :: 0 <= i < j < |group| ==> group[i].target != group[j].target
  }

  predicate SameAt(s: Store, t: Store, k: nat) {
    (k in s.rows <==> k in t.rows) && (k in s.rows ==> s.rows[k] == t.rows[k])
  }

  ghost predicate SameOn(s: Store, t: Store, targets: set<nat>) {
    forall k :: k in targets ==> SameAt(s, t, k)
  }

  /** Other sessions leave the rows of the targets in `own` alone, whatever they do to others;
      the clock does not run out, cleanup succeeds, and from transaction `from` on the only
      faults are confirmed aborts: one if the retry is still there, none otherwise. */
  ghost predicate Undisturbed(o: Oracle, own: set<nat>, from: nat, retriedAbort: bool) {
    && (forall n, s :: SameOn(s, o.interfere(n, s), own))
    && (forall n, s :: SameOn(s, o.between(n, s), own))
    && (forall n :: n >= from ==> !o.expired(n) && (o.fault(n).NoFault? || o.fault(n).ConfirmedAbort?))
    && (forall n :: o.cleanup(n) == Cleaned({}))
    && (retriedAbort ==> forall n :: n >= from ==> o.fault(n).NoFault?)
    && (forall m, n :: from <= m < n ==> !(o.fault(m).ConfirmedAbort? && o.fault(n).ConfirmedAbort?))
  }

  function Good(s: Store, group: seq<Claim>, poison: set<nat>): seq<Claim> {
    Keep(group, c => Owns(s, c) && c.target !in poison)
  }

  function Bad(s: Store, group: seq<Claim>, poison: set<nat>): seq<Claim> {
    Keep(group, c => Owns(s, c) && c.target in poison)
  }

  function Targets(group: seq<Claim>): set<nat> { set c | c in group :: c.target }

  /** Rows of other targets are untouched. */
  ghost predicate SameExcept(s: Store, t: Store, targets: set<nat>) {
    forall k :: k !in targets ==> SameAt(s, t, k)
  }

  lemma {:induction false} PublishElsewhere(s: Store, group: seq<Claim>)
    ensures SameExcept(s, PublishAll(s, group), Targets(group))
  {
    if group != [] {
      PublishElsewhere(s, group[..|group| - 1]);
      LastTarget(group);
    }
  }

  lemma {:induction false} FailElsewhere(s: Store, group: seq<Claim>, locked: set<nat>)
    ensures SameExcept(s, FailAll(s, group, locked), Targets(group))
  {
    if group != [] {
      FailElsewhere(s, group[..|group| - 1], locked);
      LastTarget(group);
    }
  }

  lemma LastTarget(group: seq<Claim>)
    requires group != []
    ensures Targets(group) == Targets(group[..|group| - 1]) + {group[|group| - 1].target}
  {
    assert group == group[..|group| - 1] + [group[|group| - 1]];
  }

  lemma KeptTargets(group: seq<Claim>, wanted: Claim -> bool)
    ensures Targets(Keep(group, wanted)) <= Targets(group)
  {
    forall c | c in Keep(group, wanted) ensures c in group { KeepMembers(group, wanted, c); }
  }

  /** What one call reports for a group: its eligible healthy targets, its ineligible
      ones, and its eligible poisoned ones, each in the order of the group; the rows of the other
      targets in `own` it leaves as they were. */
  ghost predicate Isolates(o: Oracle, own: set<nat>, p: Progress, q: Progress, group: seq<Claim>) {
    && !q.stopped
    && q.published == p.published + Good(p.store, group, o.poison)
    && q.stale == p.stale + Stale(p.store, group)
    && q.failed == p.failed + Bad(p.store, group, o.poison)
    && SameOn(p.store, q.store, own - Targets(group))
    && Undisturbed(o, own, q.attempts, q.retriedAbort)
  }

  lemma HealthyGroup(o: Oracle, own: set<nat>, begun: Progress, group: seq<Claim>)
    requires Undisturbed(o, own, begun.attempts, begun.retriedAbort) && !begun.stopped
    requires !Poisoned(Eligible(begun.store, group), o.poison)
    ensures Isolates(o, own, begun, Commit(begun, group, false), group)
  {
    var s := begun.store;
    var eligible := Eligible(s, group);
    forall i | 0 <= i < |group|
      ensures Owns(s, group[i]) == (Owns(s, group[i]) && group[i].target !in o.poison)
      ensures !(Owns(s, group[i]) && group[i].target in o.poison)
    {
      if Owns(s, group[i]) {
        KeepMembers(group, c => Owns(s, c), group[i]);
        var k :| 0 <= k < |eligible| && eligible[k] == group[i];
      }
    }
    KeepSame(group, c => Owns(s, c), c => Owns(s, c) && c.target !in o.poison);
    KeepSame(group, c => Owns(s, c) && c.target in o.poison, c => false);
    KeepNone(group);
    PublishElsewhere(s, eligible);
    KeptTargets(group, c => Owns(s, c));
  }

  lemma {:induction false} KeepNone(group: seq<Claim>)
    ensures Keep(group, c => false) == []
  {
    if group != [] { KeepNone(group[..|group| - 1]); }
  }

  lemma SingleReport(s: Store, c: Claim, poison: set<nat>)
    requires Poisoned(Eligible(s, [c]), poison)
    ensures Good(s, [c], poison) == [] && Stale(s, [c]) == [] && Bad(s, [c], poison) == [c]
  {
    var eligible := Eligible(s, [c]);
    var k :| 0 <= k < |eligible| && eligible[k].target in poison;
    KeepMembers([c], x => Owns(s, x), eligible[k]);
    KeepOne(c, x => Owns(s, x) && x.target !in poison);
    KeepOne(c, x => !Owns(s, x));
    KeepOne(c, x => Owns(s, x) && x.target in poison);
  }

  lemma PoisonedSingle(o: Oracle, own: set<nat>, begun: Progress, group: seq<Claim>)
    requires Undisturbed(o, own, begun.attempts, begun.retriedAbort) && !begun.stopped && |group| == 1
    requires Poisoned(Eligible(begun.store, group), o.poison)
    ensures Isolates(o, own, begun, Fail(o, begun, group), group)
  {
    assert group == [group[0]];
    var met := o.between(begun.cleanups, begun.store);
    assert o.cleanup(begun.cleanups) == Cleaned({}) && SameOn(begun.store, met, own);
    SingleReport(begun.store, group[0], o.poison);
    FailElsewhere(met, group, {});
  }

  lemma KeepOne(c: Claim, wanted: Claim -> bool)
    ensures Keep([c], wanted) == if wanted(c) then [c] else []
  {
    assert [c][..0] == [];
  }

  /** Where the group's own rows are the same, so is what is said about it. */
  lemma SameReports(s: Store, t: Store, group: seq<Claim>, poison: set<nat>)
    requires SameOn(s, t, Targets(group))
    ensures Good(t, group, poison) == Good(s, group, poison)
    ensures Stale(t, group) == Stale(s, group) && Bad(t, group, poison) == Bad(s, group, poison)
  {
    forall i | 0 <= i < |group| ensures Owns(s, group[i]) == Owns(t, group[i]) {
      assert group[i] in group;
      assert group[i].target in Targets(group);
    }
    KeepSame(group, c => Owns(t, c) && c.target !in poison, c => Owns(s, c) && c.target !in poison);
    KeepSame(group, c => !Owns(t, c), c => !Owns(s, c));
    KeepSame(group, c => Owns(t, c) && c.target in poison, c => Owns(s, c) && c.target in poison);
  }

  /** What is said of a group when its transaction begins is true of it before. */
  lemma SinceBefore(o: Oracle, own: set<nat>, p: Progress, q: Progress, group: seq<Claim>)
    requires Targets(group) <= own && Undisturbed(o, own, p.attempts, p.retriedAbort)
    requires Isolates(o, own, Begin(o, p), q, group)
    ensures Isolates(o, own, p, q, group)
  {
    assert SameOn(p.store, Begin(o, p).store, own);
    SameReports(p.store, Begin(o, p).store, group, o.poison);
  }

  lemma HalvesApart(group: seq<Claim>)
    requires Distinct(group)
    ensures Targets(group[..Middle(group)]) !! Targets(group[Middle(group)..])
  {
    forall c, d | c in group[..Middle(group)] && d in group[Middle(group)..] ensures c.target != d.target {
      var i :| 0 <= i < Middle(group) && group[i] == c;
      var j :| Middle(group) <= j < |group| && group[j] == d;
    }
  }

  lemma HalvesIsolate(o: Oracle, own: set<nat>, p: Progress, first: Progress, q: Progress, group: seq<Claim>)
    requires Distinct(group) && Targets(group) <= own
    requires Isolates(o, own, p, first, group[..Middle(group)])
    requires Isolates(o, own, first, q, group[Middle(group)..])
    ensures Isolates(o, own, p, q, group)
  {
    HalvesApart(group);
    HalfTargets(group);
    forall k | k in own - Targets(group) ensures SameAt(p.store, q.store, k) {
      assert SameAt(p.store, first.store, k) && SameAt(first.store, q.store, k);
    }
    SameReports(p.store, first.store, group[Middle(group)..], o.poison);
    ReportHalves(p.store, group, o.poison);
    Regroup(p.published, Good(p.store, group[..Middle(group)], o.poison), Good(p.store, group[Middle(group)..], o.poison));
    Regroup(p.stale, Stale(p.store, group[..Middle(group)]), Stale(p.store, group[Middle(group)..]));
    Regroup(p.failed, Bad(p.store, group[..Middle(group)], o.poison), Bad(p.store, group[Middle(group)..], o.poison));
  }

  lemma Regroup(a: seq<Claim>, b: seq<Claim>, c: seq<Claim>)
    ensures (a + b) + c == a + (b + c)
  {}

  lemma ReportHalves(s: Store, group: seq<Claim>, poison: set<nat>)
    ensures
      var front, back := group[..Middle(group)], group[Middle(group)..];
      && Good(s, group, poison) == Good(s, front, poison) + Good(s, back, poison)
      && Stale(s, group) == Stale(s, front) + Stale(s, back)
      && Bad(s, group, poison) == Bad(s, front, poison) + Bad(s, back, poison)
  {
    var front, back := group[..Middle(group)], group[Middle(group)..];
    Halves(group);
    KeepConcat(front, back, c => Owns(s, c) && c.target !in poison);
    KeepConcat(front, back, c => !Owns(s, c));
    KeepConcat(front, back, c => Owns(s, c) && c.target in poison);
  }

  lemma HalfTargets(group: seq<Claim>)
    ensures Targets(group) == Targets(group[..Middle(group)]) + Targets(group[Middle(group)..])
  {
    Halves(group);
  }

  /** Bisection isolates exactly the bad targets, also across one confirmed abort, and whatever
      other sessions do to other targets meanwhile. */
  lemma {:induction false} BisectionIsolates(o: Oracle, own: set<nat>, limit: nat, p: Progress, group: seq<Claim>)
    requires group != [] && Distinct(group) && !p.stopped && Targets(group) <= own
    requires Undisturbed(o, own, p.attempts, p.retriedAbort)
    requires p.attempts + 2 * |group| - 1 + RetryLeft(p) <= limit
    ensures Isolates(o, own, p, Attempt(o, limit, p, group), group)
    decreases if p.retriedAbort then 0 else 1, |group|, 1
  {
    var begun := Begin(o, p);
    match OutcomeIn(o, p, group) {
      case Committed(_) => HealthyGroup(o, own, begun, group);
      case Aborted => BisectionIsolates(o, own, limit, begun.(retriedAbort := true), group);
      case TargetLocal =>
        if |group| == 1 { PoisonedSingle(o, own, begun, group); } else { SplitIsolates(o, own, limit, p, group); }
    }
    SinceBefore(o, own, p, Attempt(o, limit, p, group), group);
  }

  lemma {:induction false} SplitIsolates(o: Oracle, own: set<nat>, limit: nat, p: Progress, group: seq<Claim>)
    requires |group| > 1 && Distinct(group) && !p.stopped && Targets(group) <= own
    requires Undisturbed(o, own, p.attempts, p.retriedAbort)
    requires p.attempts + 2 * |group| - 1 + RetryLeft(p) <= limit
    ensures
      var first := Attempt(o, limit, Begin(o, p), group[..Middle(group)]);
      Isolates(o, own, Begin(o, p), Attempt(o, limit, first, group[Middle(group)..]), group)
    decreases if p.retriedAbort then 0 else 1, |group|, 0
  {
    var begun := Begin(o, p);
    var front, back := group[..Middle(group)], group[Middle(group)..];
    HalfTargets(group);
    assert Undisturbed(o, own, begun.attempts, begun.retriedAbort);
    var first := Attempt(o, limit, begun, front);
    BisectionIsolates(o, own, limit, begun, front);
    BudgetSuffices(o, limit, limit, begun, front);
    BisectionIsolates(o, own, limit, first, back);
    HalvesIsolate(o, own, begun, first, Attempt(o, limit, first, back), group);
  }

  /** publishPreparedBatch on any batch with distinct targets and any poison set. */
  lemma BatchIsolatesBadTargets(o: Oracle, store: Store, candidates: seq<Claim>)
    requires candidates != [] && Distinct(candidates) && Undisturbed(o, Targets(candidates), 0, false)
    ensures
      var q := Attempt(o, 2 * |candidates|, Start(store), candidates);
      && !q.stopped
      && q.published == Good(store, candidates, o.poison)
      && q.stale == Stale(store, candidates)
      && q.failed == Bad(store, candidates, o.poison)
  {
    BisectionIsolates(o, Targets(candidates), 2 * |candidates|, Start(store), candidates);
  }

  // ---- Ownership and commits under any schedule ----

  ghost predicate NoNewOwners(s: Store, t: Store) {
    forall c: Claim :: c.token in s.minted && !Owns(s, c) ==> !Owns(t, c)
  }

  /** Time may pass between two stores of a consistent database. */
  ghost predicate Follows(s: Store, t: Store) {
    StoreInv(t) && Advances(s, t) && NoNewOwners(s, t)
  }

  /** Other sessions follow the protocol. */
  ghost predicate Respectful(o: Oracle) {
    && (forall n, s :: StoreInv(s) ==> Follows(s, o.interfere(n, s)))
    && (forall n, s :: StoreInv(s) ==> Follows(s, o.between(n, s)))
  }

  /** Any interleaving of other workers' steps is such an interference. */
  lemma {:induction false} RunsAreRespectful(s: State, steps: seq<Step>)
    requires Inv(s) && AllowedRun(s, steps)
    ensures Follows(s.store, Run(s, steps).store)
  {
    RunKeeps(s, steps);
    forall c: Claim | c.token in s.store.minted && !Owns(s.store, c) ensures !Owns(Run(s, steps).store, c) {
      LostOwnershipNeverReturns(s, steps, c);
    }
    RunAdvances(s, steps);
  }

  lemma {:induction false} RunAdvances(s: State, steps: seq<Step>)
    requires Inv(s) && AllowedRun(s, steps)
    ensures Advances(s.store, Run(s, steps).store)
  {
    if steps != [] {
      var n := |steps| - 1;
      PrefixAllowed(s, steps);
      var before := Run(s, steps[..n]);
      RunAdvances(s, steps[..n]);
      RunKeeps(s, steps[..n]);
      StepAdvances(before, steps[n]);
      AdvancesTransitive(s.store, before.store, Run(s, steps).store);
    }
  }

  lemma StepAdvances(s: State, step: Step)
    requires Inv(s)
    ensures Advances(s.store, Apply(s, step).store)
  {
    match step {
      case Expand(_, _, targets) => BumpAllAdvances(s.store, targets);
      case ClaimRebuilds(claims) => ClaimAllAdvances(s.store, claims);
      case Publish(group) => PublishAllAdvances(s.store, group);
      case FailRebuilds(claims, locked) => FailAllAdvances(s.store, claims, locked);
      case Repair(_, targets) => RepairAllAdvances(s.store, targets);
      case _ =>
    }
  }

  lemma FollowsTransitive(s: Store, t: Store, u: Store)
    requires Follows(s, t) && Follows(t, u)
    ensures Follows(s, u)
  {
    AdvancesTransitive(s, t, u);
  }

  lemma PublishFollows(s: Store, group: seq<Claim>)
    requires StoreInv(s)
    ensures Follows(s, PublishAll(s, group))
  {
    PublishAllKeeps(s, group);
    PublishAllAdvances(s, group);
    forall c: Claim | !Owns(s, c) ensures !Owns(PublishAll(s, group), c) { PublishAllOwner(s, group, c); }
  }

  lemma FailAllFollows(s: Store, claims: seq<Claim>, locked: set<nat>)
    requires StoreInv(s)
    ensures Follows(s, FailAll(s, claims, locked))
  {
    FailAllKeeps(s, claims, locked);
    FailAllAdvances(s, claims, locked);
    forall c: Claim | !Owns(s, c) ensures !Owns(FailAll(s, claims, locked), c) { FailAllOwner(s, claims, locked, c); }
  }

  lemma FailFollows(o: Oracle, p: Progress, group: seq<Claim>)
    requires StoreInv(p.store) && Respectful(o)
    ensures Follows(p.store, Fail(o, p, group).store)
  {
    var met := o.between(p.cleanups, p.store);
    if o.cleanup(p.cleanups).Cleaned? {
      FailAllFollows(met, group, o.cleanup(p.cleanups).locked);
      FollowsTransitive(p.store, met, Fail(o, p, group).store);
    }
  }

  lemma EndingFollows(o: Oracle, limit: nat, p: Progress, group: seq<Claim>)
    requires group != [] && Ends(o, limit, p, group) && StoreInv(p.store) && Respectful(o)
    ensures Follows(p.store, Attempt(o, limit, p, group).store)
  {
    var begun := Begin(o, p);
    if p.stopped {
      FailFollows(o, p, group);
    } else if p.attempts >= limit || o.expired(p.attempts) {
      FailFollows(o, Stop(p), group);
    } else {
      var eligible := Eligible(begun.store, group);
      PublishFollows(begun.store, eligible);
      FollowsTransitive(p.store, begun.store, PublishAll(begun.store, eligible));
      match OutcomeIn(o, p, group) {
        case Committed(_) =>
        case Unknown(committed) =>
          var doubtful := Stop(Doubtful(begun, group, committed));
          FailFollows(o, doubtful, group);
          FollowsTransitive(p.store, doubtful.store, Fail(o, doubtful, group).store);
        case TargetLocal =>
          FailFollows(o, begun, group);
          FollowsTransitive(p.store, begun.store, Fail(o, begun, group).store);
        case _ =>
          FailFollows(o, Stop(begun), group);
          FollowsTransitive(p.store, begun.store, Fail(o, Stop(begun), group).store);
      }
    }
  }

  /** A batch keeps the table consistent, takes back no version, document or publication,
      and gives no token a row it did not own. */
  lemma {:induction false} AttemptFollows(o: Oracle, limit: nat, p: Progress, group: seq<Claim>)
    requires group != [] && StoreInv(p.store) && Respectful(o)
    ensures Follows(p.store, Attempt(o, limit, p, group).store)
    ensures Attempt(o, limit, p, group).cleanups >= p.cleanups
    decreases if p.retriedAbort then 0 else 1, |group|, 1
  {
    if Ends(o, limit, p, group) {
      EndingFollows(o, limit, p, group);
    } else if OutcomeIn(o, p, group).Aborted? {
      var again := Begin(o, p).(retriedAbort := true);
      AttemptFollows(o, limit, again, group);
      FollowsTransitive(p.store, again.store, Attempt(o, limit, again, group).store);
    } else {
      SplitFollows(o, limit, Begin(o, p), group);
      FollowsTransitive(p.store, Begin(o, p).store, Attempt(o, limit, p, group).store);
    }
  }

  lemma {:induction false} SplitFollows(o: Oracle, limit: nat, begun: Progress, group: seq<Claim>)
    requires |group| > 1 && StoreInv(begun.store) && Respectful(o)
    ensures
      var first := Attempt(o, limit, begun, group[..Middle(group)]);
      var q := Attempt(o, limit, first, group[Middle(group)..]);
      Follows(begun.store, q.store) && q.cleanups >= begun.cleanups
    decreases if begun.retriedAbort then 0 else 1, |group|, 0
  {
    var first := Attempt(o, limit, begun, group[..Middle(group)]);
    AttemptFollows(o, limit, begun, group[..Middle(group)]);
    AttemptFollows(o, limit, first, group[Middle(group)..]);
    FollowsTransitive(begun.store, first.store, Attempt(o, limit, first, group[Middle(group)..]).store);
  }

  predicate Skips(cleanup: Cleanup, target: nat) {
    match cleanup case Cleaned(locked) => target in locked case CleanupFailed => true
  }

  /** Some cleanup statement between two counts left the target alone. */
  ghost predicate LeftBehind(o: Oracle, from: nat, to: nat, target: nat) {
    exists n :: from <= n < to && Skips(o.cleanup(n), target)
  }

  lemma {:induction false} FailedAreReleased(s: Store, group: seq<Claim>, locked: set<nat>, c: Claim)
    requires c in group && c.target !in locked
    ensures !Owns(FailAll(s, group, locked), c)
  {
    var init := group[..|group| - 1];
    assert group == init + [group[|group| - 1]];
    if c in init { FailedAreReleased(s, init, locked, c); }
  }

  lemma {:induction false} PublishedAreReleased(s: Store, group: seq<Claim>, c: Claim)
    requires c in group
    ensures !Owns(PublishAll(s, group), c)
  {
    var init := group[..|group| - 1];
    assert group == init + [group[|group| - 1]];
    if c in init { PublishedAreReleased(s, init, c); }
  }

  lemma FailReleases(o: Oracle, p: Progress, group: seq<Claim>, c: Claim)
    requires c in group
    ensures Owns(Fail(o, p, group).store, c) ==> LeftBehind(o, p.cleanups, Fail(o, p, group).cleanups, c.target)
  {
    if Skips(o.cleanup(p.cleanups), c.target) {
      assert LeftBehind(o, p.cleanups, Fail(o, p, group).cleanups, c.target);
    } else {
      FailedAreReleased(o.between(p.cleanups, p.store), group, o.cleanup(p.cleanups).locked, c);
    }
  }

  lemma EndingReleases(o: Oracle, limit: nat, p: Progress, group: seq<Claim>, c: Claim)
    requires group != [] && Ends(o, limit, p, group) && c in group
    ensures
      var q := Attempt(o, limit, p, group);
      Owns(q.store, c) ==> LeftBehind(o, p.cleanups, q.cleanups, c.target)
  {
    var begun := Begin(o, p);
    if p.stopped {
      FailReleases(o, p, group, c);
    } else if p.attempts >= limit || o.expired(p.attempts) {
      FailReleases(o, Stop(p), group, c);
    } else {
      match OutcomeIn(o, p, group) {
        case Committed(_) =>
          var eligible := Eligible(begun.store, group);
          KeepMembers(group, x => Owns(begun.store, x), c);
          if c in eligible {
            PublishedAreReleased(begun.store, eligible, c);
          } else {
            PublishAllOwner(begun.store, eligible, c);
          }
        case Unknown(committed) => FailReleases(o, Stop(Doubtful(begun, group, committed)), group, c);
        case TargetLocal => FailReleases(o, begun, group, c);
        case _ => FailReleases(o, Stop(begun), group, c);
      }
    }
  }

  /** When a batch returns, a row is still processing under one of its claims only if a
      cleanup statement of the batch failed or found that row locked — also after a lost
      commit acknowledgement. */
  lemma {:induction false} BatchLeaksNothing(o: Oracle, limit: nat, p: Progress, group: seq<Claim>, c: Claim)
    requires group != [] && StoreInv(p.store) && Respectful(o) && c in group && c.token in p.store.minted
    ensures
      var q := Attempt(o, limit, p, group);
      Owns(q.store, c) ==> LeftBehind(o, p.cleanups, q.cleanups, c.target)
    decreases if p.retriedAbort then 0 else 1, |group|
  {
    if Ends(o, limit, p, group) {
      EndingReleases(o, limit, p, group, c);
    } else {
      var begun := Begin(o, p);
      if OutcomeIn(o, p, group).Aborted? {
        BatchLeaksNothing(o, limit, begun.(retriedAbort := true), group, c);
      } else {
        var front, back := group[..Middle(group)], group[Middle(group)..];
        var first := Attempt(o, limit, begun, front);
        AttemptFollows(o, limit, begun, front);
        AttemptFollows(o, limit, first, back);
        Halves(group);
        if c in front {
          BatchLeaksNothing(o, limit, begun, front, c);
        } else {
          BatchLeaksNothing(o, limit, first, back, c);
        }
      }
    }
  }

  lemma {:induction false} KeepDistinct(group: seq<Claim>, wanted: Claim -> bool)
    requires Distinct(group)
    ensures Distinct(Keep(group, wanted))
  {
    if group != [] {
      var init, last := group[..|group| - 1], group[|group| - 1];
      KeepDistinct(init, wanted);
      forall i | 0 <= i < |Keep(init, wanted)| ensures Keep(init, wanted)[i].target != last.target {
        KeepMembers(init, wanted, Keep(init, wanted)[i]);
      }
    }
  }

  lemma {:induction false} PublishAllLogs(s: Store, group: seq<Claim>)
    requires Distinct(group) && forall i :: 0 <= i < |group| ==> Owns(s, group[i])
    ensures PublishAll(s, group).log == s.log + group
  {
    if group != [] {
      var init, last := group[..|group| - 1], group[|group| - 1];
      PublishAllLogs(s, init);
      PublishElsewhere(s, init);
      assert last.target !in Targets(init);
      assert group == init + [last];
    }
  }

  lemma CommitLogs(p: Progress, group: seq<Claim>, late: bool)
    requires Distinct(group)
    ensures Commit(p, group, late).store.log == p.store.log + Eligible(p.store, group)
  {
    var eligible := Eligible(p.store, group);
    KeepDistinct(group, c => Owns(p.store, c));
    forall i | 0 <= i < |eligible| ensures Owns(p.store, eligible[i]) {
      KeepMembers(group, c => Owns(p.store, c), eligible[i]);
    }
    PublishAllLogs(p.store, eligible);
  }

  lemma LogKept(s: Store, t: Store, c: Claim)
    requires Follows(s, t) && c in s.log
    ensures c in t.log
  {
    var i :| 0 <= i < |s.log| && s.log[i] == c;
    assert t.log[i] == c;
  }

  lemma AttemptKeepsLog(o: Oracle, limit: nat, p: Progress, group: seq<Claim>, c: Claim)
    requires group != [] && StoreInv(p.store) && Respectful(o)
    ensures c in p.store.log ==> c in Attempt(o, limit, p, group).store.log
  {
    AttemptFollows(o, limit, p, group);
    if c in p.store.log { LogKept(p.store, Attempt(o, limit, p, group).store, c); }
  }

  lemma EndingCommitted(o: Oracle, limit: nat, p: Progress, group: seq<Claim>, c: Claim)
    requires group != [] && Distinct(group) && StoreInv(p.store) && Respectful(o) && Ends(o, limit, p, group)
    ensures
      var q := Attempt(o, limit, p, group);
      c in q.published ==> c in p.published || c in q.store.log
  {
    if !p.stopped && p.attempts < limit && !o.expired(p.attempts) && OutcomeIn(o, p, group).Committed? {
      CommitLogs(Begin(o, p), group, OutcomeIn(o, p, group).late);
    }
  }

  /** Only confirmed commits are reported published: each is in the publication log. */
  lemma {:induction false} PublishedIsCommitted(o: Oracle, limit: nat, p: Progress, group: seq<Claim>, c: Claim)
    requires group != [] && Distinct(group) && StoreInv(p.store) && Respectful(o)
    ensures
      var q := Attempt(o, limit, p, group);
      c in q.published ==> c in p.published || c in q.store.log
    decreases if p.retriedAbort then 0 else 1, |group|
  {
    var begun := Begin(o, p);
    if Ends(o, limit, p, group) {
      EndingCommitted(o, limit, p, group, c);
    } else if OutcomeIn(o, p, group).Aborted? {
      PublishedIsCommitted(o, limit, begun.(retriedAbort := true), group, c);
    } else {
      var first := Attempt(o, limit, begun, group[..Middle(group)]);
      AttemptFollows(o, limit, begun, group[..Middle(group)]);
      PublishedIsCommitted(o, limit, begun, group[..Middle(group)], c);
      PublishedIsCommitted(o, limit, first, group[Middle(group)..], c);
      AttemptKeepsLog(o, limit, first, group[Middle(group)..], c);
      assert Attempt(o, limit, p, group) == Attempt(o, limit, first, group[Middle(group)..]);
    }
  }

  // ---- Acknowledging a bulk publication ----

  function Identities(ids: seq<nat>): set<nat> { set i | i in ids }

  /** assertPublicationCoverage, by sizes and membership as the program checks it. */
  predicate CoverageAccepted(eligible: seq<Claim>, acknowledged: seq<nat>) {
    var expected := Targets(eligible);
    && |acknowledged| == |expected| && |Identities(acknowledged)| == |expected|
    && forall id :: id in acknowledged ==> id in expected
  }

  ghost predicate EachOnce(ids: seq<nat>) {
    forall i, j :: 0 <= i < j < |ids| ==> ids[i] != ids[j]
  }

  lemma {:induction false} DistinctCount(ids: seq<nat>)
    ensures |Identities(ids)| <= |ids|
    ensures |Identities(ids)| == |ids| <==> EachOnce(ids)
  {
    if ids != [] {
      var init, last := ids[..|ids| - 1], ids[|ids| - 1];
      DistinctCount(init);
      assert ids == init + [last];
      assert Identities(ids) == Identities(init) + {last};
      if last in init {
        var i :| 0 <= i < |init| && init[i] == last;
        assert Identities(ids) == Identities(init) && ids[i] == ids[|ids| - 1];
      }
    }
  }

  lemma SameSize(a: set<nat>, b: set<nat>)
    requires a <= b && |a| == |b|
    ensures a == b
  {
    assert b == a + (b - a);
    assert |b| == |a| + |b - a|;
  }

  /** An acknowledgement is accepted exactly when it names every eligible target once and
      nothing else. */
  lemma CoverageIsExact(eligible: seq<Claim>, acknowledged: seq<nat>)
    ensures CoverageAccepted(eligible, acknowledged) <==>
      EachOnce(acknowledged) && Identities(acknowledged) == Targets(eligible)
  {
    DistinctCount(acknowledged);
    if CoverageAccepted(eligible, acknowledged) {
      SameSize(Identities(acknowledged), Targets(eligible));
    }
  }
}
