// The two-stage invalidation protocol over whole runs: outbox rows are expanded into
// versioned rebuild requirements, workers claim and publish them, repair takes them
// over. A step is one committed transaction of any worker, so a run is any interleaving;
// a rolled-back transaction is no step, and whether a worker learns of a commit makes no
// difference to the state (packages/document-update/src/index.ts).
module RebuildProtocol {
  import opened Json
  import opened RebuildRows

  datatype OutboxRow = OutboxRow(status: Status, token: Option<nat>, requests: seq<Request>)

  datatype Receipt = Receipt(outboxId: nat, requests: seq<Request>)

  /** `receipts` lists the processed outbox rows in the order they committed. */
  datatype State = State(outbox: map<nat, OutboxRow>, store: Store, receipts: seq<Receipt>)

  const INITIAL := State(map[], EMPTY_STORE, [])

  datatype Step =
    | Insert(outboxId: nat)
    | ClaimOutbox(outboxId: nat, token: nat)
    | Expand(outboxId: nat, token: nat, targets: seq<nat>)
    | FailOutbox(outboxId: nat, token: nat)
    | ClaimRebuilds(claims: seq<Claim>)
    | Publish(group: seq<Claim>)
    | FailRebuilds(claims: seq<Claim>, locked: set<nat>)
    | Repair(outboxIds: set<nat>, targets: seq<nat>)

  predicate OwnsOutbox(s: State, id: nat, token: nat) {
    id in s.outbox && s.outbox[id].status.Processing? && s.outbox[id].token == Some(token)
  }

  function Requests(store: Store, targets: seq<nat>): (r: seq<Request>)
    ensures |r| == |targets|
    ensures forall i :: 0 <= i < |targets| ==> r[i] == Request(targets[i], VersionOf(store, targets[i]))
  {
    seq(|targets|, i requires 0 <= i < |targets| => Request(targets[i], VersionOf(store, targets[i])))
  }

  function ExpandStep(s: State, id: nat, token: nat, targets: seq<nat>): State {
    if OwnsOutbox(s, id, token) then
      var store := BumpAll(s.store, targets);
      var requests := Requests(store, targets);
      State(s.outbox[id := OutboxRow(Processed, None, requests)], store, s.receipts + [Receipt(id, requests)])
    else s
  }

  function RepairOutbox(outbox: map<nat, OutboxRow>, ids: set<nat>): map<nat, OutboxRow> {
    map id | id in outbox ::
      if id in ids && !outbox[id].status.Processed? then OutboxRow(Pending, None, outbox[id].requests) else outbox[id]
  }

  function Apply(s: State, step: Step): State {
    match step
    case Insert(id) => s.(outbox := s.outbox[id := OutboxRow(Pending, None, [])])
    case ClaimOutbox(id, token) =>
      var minted := s.(store := s.store.(minted := s.store.minted + {token}));
      if id in s.outbox && (s.outbox[id].status.Pending? || s.outbox[id].status.Failed?)
      then minted.(outbox := s.outbox[id := OutboxRow(Processing, Some(token), s.outbox[id].requests)])
      else minted
    case Expand(id, token, targets) => ExpandStep(s, id, token, targets)
    case FailOutbox(id, token) =>
      if OwnsOutbox(s, id, token)
      then s.(outbox := s.outbox[id := OutboxRow(Failed, None, s.outbox[id].requests)])
      else s
    case ClaimRebuilds(claims) => s.(store := ClaimAll(s.store, claims))
    case Publish(group) => s.(store := PublishAll(s.store, group))
    case FailRebuilds(claims, locked) => s.(store := FailAll(s.store, claims, locked))
    case Repair(ids, targets) =>
      s.(outbox := RepairOutbox(s.outbox, ids), store := RepairAll(s.store, targets))
  }

  ghost predicate DistinctTargets(targets: seq<nat>) {
    forall i, j :: 0 <= i < j < |targets| ==> targets[i] != targets[j]
  }

  /** Random identifiers are new; an expansion names each target once. */
  ghost predicate Allowed(s: State, step: Step) {
    match step
    case Insert(id) => id !in s.outbox
    case ClaimOutbox(_, token) => token !in s.store.minted
    case Expand(_, _, targets) => DistinctTargets(targets)
    case ClaimRebuilds(claims) => FreshTokens(s.store, claims)
    case _ => true
  }

  function Run(s: State, steps: seq<Step>): State {
    if steps == [] then s else Apply(Run(s, steps[..|steps| - 1]), steps[|steps| - 1])
  }

  ghost predicate AllowedRun(s: State, steps: seq<Step>) {
    forall i :: 0 <= i < |steps| ==> Allowed(Run(s, steps[..i]), steps[i])
  }

  // ---- The invariant ----

  ghost predicate OutboxConsistent(s: State) {
    && (forall id :: id in s.outbox ==> (s.outbox[id].status.Processing? <==> s.outbox[id].token.Some?))
    && (forall i :: 0 <= i < |s.receipts| ==>
          s.receipts[i].outboxId in s.outbox
          && s.outbox[s.receipts[i].outboxId] == OutboxRow(Processed, None, s.receipts[i].requests))
    && (forall id :: id in s.outbox && s.outbox[id].status.Processed? ==>
          exists i :: 0 <= i < |s.receipts| && s.receipts[i].outboxId == id)
    && (forall i, j :: 0 <= i < j < |s.receipts| ==> s.receipts[i].outboxId != s.receipts[j].outboxId)
  }

  /** Every version a receipt asks for has been required of its target. */
  ghost predicate ReceiptsRequired(s: State) {
    forall i, k :: 0 <= i < |s.receipts| && 0 <= k < |s.receipts[i].requests| ==>
      1 <= s.receipts[i].requests[k].version <= VersionOf(s.store, s.receipts[i].requests[k].target)
  }

  ghost predicate Inv(s: State) {
    StoreInv(s.store) && OutboxConsistent(s) && ReceiptsRequired(s)
  }

  lemma InitialInv()
    ensures Inv(INITIAL)
  {}

  lemma {:induction false} BumpedVersion(store: Store, targets: seq<nat>, t: nat)
    requires DistinctTargets(targets)
    ensures VersionOf(BumpAll(store, targets), t) == VersionOf(store, t) + if t in targets then 1 else 0
  {
    if targets != [] {
      var init := targets[..|targets| - 1];
      BumpedVersion(store, init, t);
      assert targets == init + [targets[|targets| - 1]];
    }
  }

  lemma ReceiptsStayRequired(s: State, later: Store)
    requires ReceiptsRequired(s) && Advances(s.store, later)
    ensures ReceiptsRequired(s.(store := later))
  {
    forall i, k | 0 <= i < |s.receipts| && 0 <= k < |s.receipts[i].requests|
      ensures 1 <= s.receipts[i].requests[k].version <= VersionOf(later, s.receipts[i].requests[k].target)
    {
      var t := s.receipts[i].requests[k].target;
      assert VersionOf(s.store, t) <= VersionOf(later, t);
    }
  }

  lemma StoreStepKeeps(s: State, later: Store)
    requires Inv(s) && StoreInv(later) && Advances(s.store, later)
    ensures Inv(s.(store := later))
  {
    ReceiptsStayRequired(s, later);
  }

  lemma ExpandKeepsOutbox(s: State, id: nat, token: nat, targets: seq<nat>)
    requires OutboxConsistent(s) && OwnsOutbox(s, id, token)
    ensures OutboxConsistent(ExpandStep(s, id, token, targets))
  {
    var n := ExpandStep(s, id, token, targets);
    assert n.receipts[|s.receipts|] == Receipt(id, Requests(n.store, targets));
    assert forall i :: 0 <= i < |s.receipts| ==> n.receipts[i] == s.receipts[i];
  }

  lemma ExpandKeepsReceipts(s: State, id: nat, token: nat, targets: seq<nat>)
    requires ReceiptsRequired(s) && OwnsOutbox(s, id, token) && DistinctTargets(targets)
    ensures ReceiptsRequired(ExpandStep(s, id, token, targets))
  {
    var n := ExpandStep(s, id, token, targets);
    BumpAllAdvances(s.store, targets);
    ReceiptsStayRequired(s, n.store);
    assert n.receipts[|s.receipts|] == Receipt(id, Requests(n.store, targets));
    assert forall i :: 0 <= i < |s.receipts| ==> n.receipts[i] == s.receipts[i];
    forall k | 0 <= k < |targets| ensures 1 <= VersionOf(n.store, targets[k]) {
      BumpedVersion(s.store, targets, targets[k]);
    }
  }

  lemma ExpandKeeps(s: State, id: nat, token: nat, targets: seq<nat>)
    requires Inv(s) && DistinctTargets(targets)
    ensures Inv(ExpandStep(s, id, token, targets))
  {
    if OwnsOutbox(s, id, token) {
      BumpAllKeeps(s.store, targets);
      ExpandKeepsOutbox(s, id, token, targets);
      ExpandKeepsReceipts(s, id, token, targets);
    }
  }

  lemma MintKeeps(s: Store, token: nat)
    requires StoreInv(s)
    ensures StoreInv(s.(minted := s.minted + {token}))
  {
    GivenUp(s, s.(minted := s.minted + {token}));
  }

  /** The statements that touch only the outbox. */
  lemma OutboxStepKeeps(s: State, step: Step)
    requires Inv(s) && Allowed(s, step)
    requires step.Insert? || step.ClaimOutbox? || step.FailOutbox? || (step.Repair? && step.targets == [])
    ensures Inv(Apply(s, step))
  {
    if step.ClaimOutbox? { MintKeeps(s.store, step.token); }
    assert Apply(s, step).receipts == s.receipts;
    assert OutboxConsistent(Apply(s, step));
  }

  lemma ApplyKeeps(s: State, step: Step)
    requires Inv(s) && Allowed(s, step)
    ensures Inv(Apply(s, step))
  {
    match step {
      case Expand(id, token, targets) => ExpandKeeps(s, id, token, targets);
      case ClaimRebuilds(claims) =>
        ClaimAllKeeps(s.store, claims);
        ClaimAllAdvances(s.store, claims);
        StoreStepKeeps(s, ClaimAll(s.store, claims));
      case Publish(group) =>
        PublishAllKeeps(s.store, group);
        PublishAllAdvances(s.store, group);
        StoreStepKeeps(s, PublishAll(s.store, group));
      case FailRebuilds(claims, locked) =>
        FailAllKeeps(s.store, claims, locked);
        FailAllAdvances(s.store, claims, locked);
        StoreStepKeeps(s, FailAll(s.store, claims, locked));
      case Repair(ids, targets) =>
        RepairAllKeeps(s.store, targets);
        RepairAllAdvances(s.store, targets);
        OutboxStepKeeps(s, Repair(ids, []));
        StoreStepKeeps(Apply(s, Repair(ids, [])), RepairAll(s.store, targets));
      case _ => OutboxStepKeeps(s, step);
    }
  }

  lemma PrefixAllowed(s: State, steps: seq<Step>)
    requires AllowedRun(s, steps) && steps != []
    ensures AllowedRun(s, steps[..|steps| - 1])
    ensures Allowed(Run(s, steps[..|steps| - 1]), steps[|steps| - 1])
  {
    assert forall i :: 0 <= i < |steps| - 1 ==> steps[..|steps| - 1][..i] == steps[..i];
  }

  lemma {:induction false} RunKeeps(s: State, steps: seq<Step>)
    requires Inv(s) && AllowedRun(s, steps)
    ensures Inv(Run(s, steps))
  {
    if steps != [] {
      var n := |steps| - 1;
      PrefixAllowed(s, steps);
      RunKeeps(s, steps[..n]);
      ApplyKeeps(Run(s, steps[..n]), steps[n]);
    }
  }

  // ---- Publication safety over every run ----

  /** In every interleaving: published versions of a target strictly increase in commit
      order, so no (target, version) is published twice, no claim token publishes twice,
      a token is held exactly while processing, and a row is processed exactly when its
      stored document carries its current version. */
  lemma PublicationSafety(steps: seq<Step>)
    requires AllowedRun(INITIAL, steps)
    ensures
      var s := Run(INITIAL, steps).store;
      && (forall i, j :: 0 <= i < j < |s.log| && s.log[i].target == s.log[j].target ==>
            s.log[i].version < s.log[j].version)
      && (forall i, j :: 0 <= i < j < |s.log| ==> s.log[i].token != s.log[j].token)
      && (forall t :: t in s.rows ==> (s.rows[t].status.Processing? <==> s.rows[t].token.Some?))
      && (forall t :: t in s.rows ==>
            (s.rows[t].status.Processed? <==> t in s.documents && s.documents[t] == s.rows[t].version))
  {
    InitialInv();
    RunKeeps(INITIAL, steps);
  }

  // ---- Ownership ----

  lemma {:induction false} ClaimAllOwner(s: Store, claims: seq<Claim>, c: Claim)
    requires !Owns(s, c) && c.token !in Tokens(claims)
    ensures !Owns(ClaimAll(s, claims), c)
  {
    if claims != [] { ClaimAllOwner(s, claims[..|claims| - 1], c); }
  }

  lemma {:induction false} PublishAllOwner(s: Store, claims: seq<Claim>, c: Claim)
    requires !Owns(s, c)
    ensures !Owns(PublishAll(s, claims), c)
  {
    if claims != [] { PublishAllOwner(s, claims[..|claims| - 1], c); }
  }

  lemma {:induction false} FailAllOwner(s: Store, claims: seq<Claim>, locked: set<nat>, c: Claim)
    requires !Owns(s, c)
    ensures !Owns(FailAll(s, claims, locked), c)
  {
    if claims != [] { FailAllOwner(s, claims[..|claims| - 1], locked, c); }
  }

  lemma {:induction false} BumpAllOwner(s: Store, targets: seq<nat>, c: Claim)
    requires !Owns(s, c)
    ensures !Owns(BumpAll(s, targets), c)
  {
    if targets != [] { BumpAllOwner(s, targets[..|targets| - 1], c); }
  }

  lemma {:induction false} RepairAllOwner(s: Store, targets: seq<nat>, c: Claim)
    requires !Owns(s, c)
    ensures !Owns(RepairAll(s, targets), c)
  {
    if targets != [] { RepairAllOwner(s, targets[..|targets| - 1], c); }
  }

  lemma StepOwner(s: State, step: Step, c: Claim)
    requires Allowed(s, step) && c.token in s.store.minted && !Owns(s.store, c)
    ensures c.token in Apply(s, step).store.minted && !Owns(Apply(s, step).store, c)
    ensures s.store.minted <= Apply(s, step).store.minted
  {
    match step {
      case Expand(_, _, targets) => BumpAllOwner(s.store, targets, c); BumpAllAdvances(s.store, targets);
      case ClaimRebuilds(claims) =>
        TokensOf(claims, c.token);
        ClaimAllOwner(s.store, claims, c);
        ClaimAllAdvances(s.store, claims);
      case Publish(group) => PublishAllOwner(s.store, group, c); PublishAllMints(s.store, group);
      case FailRebuilds(claims, locked) =>
        FailAllOwner(s.store, claims, locked, c);
        FailAllAdvances(s.store, claims, locked);
      case Repair(_, targets) => RepairAllOwner(s.store, targets, c); RepairAllAdvances(s.store, targets);
      case _ =>
    }
  }

  /** The only steps that can end a claim: a new expansion or a repair of its target, or a
      publication or cleanup that presents this very claim. */
  predicate Ends(step: Step, c: Claim) {
    match step
    case Expand(_, _, targets) => c.target in targets
    case Repair(_, targets) => c.target in targets
    case Publish(group) => c in group
    case FailRebuilds(claims, _) => c in claims
    case _ => false
  }

  lemma {:induction false} BumpAllSpares(s: Store, targets: seq<nat>, c: Claim)
    requires c.target !in targets
    ensures Owns(BumpAll(s, targets), c) <==> Owns(s, c)
  {
    if targets != [] { BumpAllSpares(s, targets[..|targets| - 1], c); }
  }

  lemma {:induction false} RepairAllSpares(s: Store, targets: seq<nat>, c: Claim)
    requires c.target !in targets
    ensures Owns(RepairAll(s, targets), c) <==> Owns(s, c)
  {
    if targets != [] { RepairAllSpares(s, targets[..|targets| - 1], c); }
  }

  lemma {:induction false} OthersSpare(s: Store, claims: seq<Claim>, locked: set<nat>, c: Claim)
    requires Owns(s, c) && c !in claims
    ensures Owns(PublishAll(s, claims), c) && Owns(FailAll(s, claims, locked), c)
  {
    if claims != [] { OthersSpare(s, claims[..|claims| - 1], locked, c); }
  }

  lemma {:induction false} ClaimingSpares(s: Store, claims: seq<Claim>, c: Claim)
    requires Owns(s, c)
    ensures Owns(ClaimAll(s, claims), c)
  {
    if claims != [] { ClaimingSpares(s, claims[..|claims| - 1], c); }
  }

  /** A row stays with its claim through every run in which nothing ends it: a worker that
      never learns of its claim keeps the row until an expansion or a repair. */
  lemma {:induction false} OwnershipLastsUntilEnded(s: State, steps: seq<Step>, c: Claim)
    requires Owns(s.store, c) && forall i :: 0 <= i < |steps| ==> !Ends(steps[i], c)
    ensures Owns(Run(s, steps).store, c)
  {
    if steps != [] {
      var before := Run(s, steps[..|steps| - 1]);
      OwnershipLastsUntilEnded(s, steps[..|steps| - 1], c);
      match steps[|steps| - 1] {
        case Expand(_, _, targets) => BumpAllSpares(before.store, targets, c);
        case Repair(_, targets) => RepairAllSpares(before.store, targets, c);
        case ClaimRebuilds(claims) => ClaimingSpares(before.store, claims, c);
        case Publish(group) => OthersSpare(before.store, group, {}, c);
        case FailRebuilds(claims, locked) => OthersSpare(before.store, claims, locked, c);
        case _ =>
      }
    }
  }

  lemma {:induction false} PublishAllMints(s: Store, claims: seq<Claim>)
    ensures PublishAll(s, claims).minted == s.minted
  {
    if claims != [] { PublishAllMints(s, claims[..|claims| - 1]); }
  }

  /** A claim that has lost its row — to a new requirement, to repair and a new owner, to
      its own failure or publication — never owns it again, so a late publication or
      cleanup under it changes nothing. */
  lemma {:induction false} LostOwnershipNeverReturns(s: State, steps: seq<Step>, c: Claim)
    requires AllowedRun(s, steps) && c.token in s.store.minted && !Owns(s.store, c)
    ensures c.token in Run(s, steps).store.minted && !Owns(Run(s, steps).store, c)
    ensures PublishOne(Run(s, steps).store, c) == Run(s, steps).store == FailOne(Run(s, steps).store, c)
  {
    if steps != [] {
      var n := |steps| - 1;
      PrefixAllowed(s, steps);
      LostOwnershipNeverReturns(s, steps[..n], c);
      StepOwner(Run(s, steps[..n]), steps[n], c);
    }
  }

  // ---- No invalidation is lost ----

  /** How many receipts name a target. */
  function Naming(receipts: seq<Receipt>, t: nat): nat {
    if receipts == [] then 0 else
      Naming(receipts[..|receipts| - 1], t) + if Names(receipts[|receipts| - 1].requests, t) then 1 else 0
  }

  predicate Names(requests: seq<Request>, t: nat) { exists k :: 0 <= k < |requests| && requests[k].target == t }

  lemma {:induction false} ClaimAllVersions(s: Store, claims: seq<Claim>, t: nat)
    ensures VersionOf(ClaimAll(s, claims), t) == VersionOf(s, t)
  {
    if claims != [] { ClaimAllVersions(s, claims[..|claims| - 1], t); }
  }

  lemma {:induction false} PublishAllVersions(s: Store, claims: seq<Claim>, t: nat)
    ensures VersionOf(PublishAll(s, claims), t) == VersionOf(s, t)
  {
    if claims != [] { PublishAllVersions(s, claims[..|claims| - 1], t); }
  }

  lemma {:induction false} FailAllVersions(s: Store, claims: seq<Claim>, locked: set<nat>, t: nat)
    ensures VersionOf(FailAll(s, claims, locked), t) == VersionOf(s, t)
  {
    if claims != [] { FailAllVersions(s, claims[..|claims| - 1], locked, t); }
  }

  lemma {:induction false} RepairAllVersions(s: Store, targets: seq<nat>, t: nat)
    ensures VersionOf(RepairAll(s, targets), t) == VersionOf(s, t)
  {
    if targets != [] { RepairAllVersions(s, targets[..|targets| - 1], t); }
  }

  lemma StepCounts(s: State, step: Step, t: nat)
    requires Allowed(s, step)
    ensures VersionOf(Apply(s, step).store, t) - VersionOf(s.store, t)
         == Naming(Apply(s, step).receipts, t) - Naming(s.receipts, t)
  {
    match step {
      case Expand(id, token, targets) =>
        if OwnsOutbox(s, id, token) {
          BumpedVersion(s.store, targets, t);
          var n := Apply(s, step);
          assert n.receipts[..|s.receipts|] == s.receipts;
          var requests := Requests(n.store, targets);
          if t in targets {
            var k :| 0 <= k < |targets| && targets[k] == t;
            assert requests[k].target == t;
          }
        }
      case ClaimRebuilds(claims) => ClaimAllVersions(s.store, claims, t);
      case Publish(group) => PublishAllVersions(s.store, group, t);
      case FailRebuilds(claims, locked) => FailAllVersions(s.store, claims, locked, t);
      case Repair(_, targets) => RepairAllVersions(s.store, targets, t);
      case _ =>
    }
  }

  /** Over any run, from any state, a target's version grows by exactly the number of
      outbox rows processed in the run that name it. */
  lemma {:induction false} VersionsCountExpansions(s: State, steps: seq<Step>, t: nat)
    requires AllowedRun(s, steps)
    ensures VersionOf(Run(s, steps).store, t) - VersionOf(s.store, t)
         == Naming(Run(s, steps).receipts, t) - Naming(s.receipts, t)
  {
    if steps != [] {
      var n := |steps| - 1;
      PrefixAllowed(s, steps);
      VersionsCountExpansions(s, steps[..n], t);
      StepCounts(Run(s, steps[..n]), steps[n], t);
    }
  }

  lemma StepLeavesProcessed(s: State, step: Step, id: nat)
    requires Allowed(s, step) && id in s.outbox && s.outbox[id].status.Processed?
    ensures id in Apply(s, step).outbox && Apply(s, step).outbox[id] == s.outbox[id]
  {}

  /** A processed outbox row is terminal: no later step of any worker changes it. */
  lemma {:induction false} ProcessedIsTerminal(s: State, steps: seq<Step>, id: nat)
    requires AllowedRun(s, steps) && id in s.outbox && s.outbox[id].status.Processed?
    ensures id in Run(s, steps).outbox && Run(s, steps).outbox[id] == s.outbox[id]
  {
    if steps != [] {
      PrefixAllowed(s, steps);
      ProcessedIsTerminal(s, steps[..|steps| - 1], id);
      StepLeavesProcessed(Run(s, steps[..|steps| - 1]), steps[|steps| - 1], id);
    }
  }

  /** Whatever else a repair selects, it takes over a target's unprocessed row. */
  lemma {:induction false} RepairAllTakesOver(s: Store, targets: seq<nat>, t: nat)
    requires t in s.rows && !s.rows[t].status.Processed?
    ensures RepairAll(s, targets).minted == s.minted && t in RepairAll(s, targets).rows
    ensures
      var row := RepairAll(s, targets).rows[t];
      row.version == s.rows[t].version && !row.status.Processed? && (t in targets ==> row.status.Pending?)
  {
    if targets != [] { RepairAllTakesOver(s, targets[..|targets| - 1], t); }
  }

  lemma PendingIsPublished(store: Store, c: Claim)
    requires c.target in store.rows && store.rows[c.target].status.Pending? && store.rows[c.target].version == c.version
    ensures
      var done := PublishAll(ClaimAll(store, [c]), [c]);
      c.target in done.documents && done.documents[c.target] == c.version
  {
    assert [c][..0] == [];
    assert ClaimAll(store, [c]) == ClaimOne(store, c);
    assert PublishAll(ClaimOne(store, c), [c]) == PublishOne(ClaimOne(store, c), c);
  }

  lemma {:induction false} RunThree(s: State, a: Step, b: Step, c: Step)
    ensures Run(s, [a, b, c]) == Apply(Apply(Apply(s, a), b), c)
    ensures AllowedRun(s, [a, b, c]) <==>
      Allowed(s, a) && Allowed(Apply(s, a), b) && Allowed(Apply(Apply(s, a), b), c)
  {
    var steps := [a, b, c];
    assert steps[..0] == [] && steps[..1] == [a] && steps[..2] == [a, b];
    assert [a][..0] == [] && [a, b][..1] == [a];
    assert Run(s, steps[..1]) == Apply(s, a);
    assert Run(s, steps[..2]) == Apply(Apply(s, a), b);
    if AllowedRun(s, steps) {
      assert Allowed(Run(s, steps[..0]), steps[0]);
      assert Allowed(Run(s, steps[..1]), steps[1]);
      assert Allowed(Run(s, steps[..2]), steps[2]);
    }
  }

  lemma RunThreeAllowed(s: State, a: Step, b: Step, c: Step)
    requires Allowed(s, a) && Allowed(Apply(s, a), b) && Allowed(Apply(Apply(s, a), b), c)
    ensures AllowedRun(s, [a, b, c]) && Run(s, [a, b, c]) == Apply(Apply(Apply(s, a), b), c)
  {
    RunThree(s, a, b, c);
  }

  /** Every version a receipt asked for is either covered by a stored document at least
      as new, or its row is still pending, processing or failed, and then any repair that
      selects it, whatever else it selects, and claim and publish by any worker with a new
      token cover it. */
  lemma NoInvalidationIsLost(s: State, i: nat, k: nat, token: nat, ids: set<nat>, targets: seq<nat>)
    requires Inv(s) && i < |s.receipts| && k < |s.receipts[i].requests| && token !in s.store.minted
    requires s.receipts[i].requests[k].target in targets
    ensures
      var r := s.receipts[i].requests[k];
      || (r.target in s.store.documents && r.version <= s.store.documents[r.target])
      || (&& r.target in s.store.rows
          && !s.store.rows[r.target].status.Processed?
          && var c := Claim(r.target, s.store.rows[r.target].version, token);
             var steps := [Repair(ids, targets), ClaimRebuilds([c]), Publish([c])];
             && AllowedRun(s, steps)
             && r.target in Run(s, steps).store.documents
             && r.version <= Run(s, steps).store.documents[r.target])
  {
    var r := s.receipts[i].requests[k];
    var row := s.store.rows[r.target];
    if !row.status.Processed? {
      var c := Claim(r.target, row.version, token);
      RepairAllTakesOver(s.store, targets, r.target);
      PendingIsPublished(RepairAll(s.store, targets), c);
      RunThreeAllowed(s, Repair(ids, targets), ClaimRebuilds([c]), Publish([c]));
    }
  }

  /** An outbox row that is not processed can be claimed and expanded after any repair that
      selects it. */
  lemma UnprocessedOutboxCanExpand(s: State, id: nat, token: nat, targets: seq<nat>, ids: set<nat>, repaired: seq<nat>)
    requires Inv(s) && id in s.outbox && !s.outbox[id].status.Processed? && id in ids
    requires token !in s.store.minted && DistinctTargets(targets)
    ensures
      var steps := [Repair(ids, repaired), ClaimOutbox(id, token), Expand(id, token, targets)];
      && AllowedRun(s, steps)
      && id in Run(s, steps).outbox
      && Run(s, steps).outbox[id].status.Processed?
      && forall t :: t in targets ==> VersionOf(Run(s, steps).store, t) == VersionOf(s.store, t) + 1
  {
    var first := Apply(s, Repair(ids, repaired));
    var claimed := Apply(first, ClaimOutbox(id, token));
    RepairAllMints(s.store, repaired);
    RunThreeAllowed(s, Repair(ids, repaired), ClaimOutbox(id, token), Expand(id, token, targets));
    forall t | t in targets ensures VersionOf(BumpAll(claimed.store, targets), t) == VersionOf(s.store, t) + 1 {
      BumpedVersion(claimed.store, targets, t);
      RepairAllVersions(s.store, repaired, t);
    }
  }

  lemma {:induction false} RepairAllMints(s: Store, targets: seq<nat>)
    ensures RepairAll(s, targets).minted == s.minted
  {
    if targets != [] { RepairAllMints(s, targets[..|targets| - 1]); }
  }
}
