// Delegations of approval rights: who may act for whom, in which application, over which
// part of the organization tree and when (packages/delegation/src/delegation.service.ts).
// A transaction locks its delegator's user row, checks against committed rows, and writes;
// transactions interleave step by step.
module Delegation {
  import opened Json

  datatype Status = Enable | Pause | Disable

  /** Periods are closed: both ends belong to them. */
  datatype Delegation = Delegation(
    delegator: nat, delegatee: nat, client: nat, scope: nat, start: int, end: int, status: Status, description: Option<string>)

  datatype Error =
    | Invalid | NotFound | OwnerMissing | Ended | SelfDelegation | EmptyPeriod | Conflict

  datatype Result<T> = Ok(value: T) | Err(error: Error)

  // ---- The organization tree ----

  /** A forest; `depth` witnesses that going to the parent ends. */
  datatype Tree = Tree(parents: map<nat, nat>, depth: map<nat, nat>)

  ghost predicate WellFounded(t: Tree) {
    forall n :: n in t.parents ==> n in t.depth && t.parents[n] in t.depth && t.depth[t.parents[n]] < t.depth[n]
  }

  /** The rows of the closure table: every organization is its own ancestor. */
  predicate IsAncestor(t: Tree, a: nat, d: nat)
    requires WellFounded(t)
    decreases if d in t.depth then t.depth[d] else 0
  {
    a == d || (d in t.parents && IsAncestor(t, a, t.parents[d]))
  }

  predicate Related(t: Tree, a: nat, b: nat)
    requires WellFounded(t)
  {
    a == b || IsAncestor(t, a, b) || IsAncestor(t, b, a)
  }

  /** Two ancestors of one organization lie on one path to the root. */
  lemma {:induction false} AncestorsAreRelated(t: Tree, a: nat, b: nat, d: nat)
    requires WellFounded(t) && IsAncestor(t, a, d) && IsAncestor(t, b, d)
    ensures Related(t, a, b)
    decreases if d in t.depth then t.depth[d] else 0
  {
    if a != d && b != d { AncestorsAreRelated(t, a, b, t.parents[d]); }
  }

  // ---- Conflicts ----

  predicate Open(d: Delegation) { !d.status.Disable? }

  predicate Overlap(a: Delegation, b: Delegation) { a.end >= b.start && a.start <= b.end }

  predicate Conflicts(t: Tree, existing: Delegation, candidate: Delegation)
    requires WellFounded(t)
  {
    && existing.delegator == candidate.delegator && existing.client == candidate.client
    && Open(existing) && Overlap(existing, candidate) && Related(t, existing.scope, candidate.scope)
  }

  predicate ConflictFree(t: Tree, rows: map<nat, Delegation>, candidate: Delegation, exclude: Option<nat>)
    requires WellFounded(t)
  {
    !Open(candidate) || forall id :: id in rows && Some(id) != exclude ==> !Conflicts(t, rows[id], candidate)
  }

  function Validated(t: Tree, rows: map<nat, Delegation>, candidate: Delegation, exclude: Option<nat>): Result<Delegation>
    requires WellFounded(t)
  {
    if candidate.delegator == candidate.delegatee then Err(SelfDelegation)
    else if !(candidate.start < candidate.end) then Err(EmptyPeriod)
    else if !ConflictFree(t, rows, candidate, exclude) then Err(Conflict)
    else Ok(candidate)
  }

  // ---- Inputs ----

  datatype User = User(id: nat, username: string, enabled: bool, deleted: bool)

  /** Users by name and by number, usable clients, and usable organizations by code. */
  datatype Directory = Directory(byName: map<string, User>, byId: map<nat, User>, clients: set<nat>, organizations: map<string, nat>)

  datatype Scope = AllScope | ClientScope(client: nat) | DelegatorScope(user: nat) | DelegateeScope(receiver: nat)

  datatype CreateInput = CreateInput(
    delegator: Option<string>, delegatee: string, client: Option<nat>, orgCode: string,
    start: int, end: int, description: Option<string>)

  datatype Patch = Patch(start: Option<int>, end: Option<int>, description: Option<Option<string>>, status: Option<Status>)

  predicate Covers(scope: Scope, d: Delegation) {
    match scope
    case AllScope => true
    case ClientScope(client) => d.client == client
    case DelegatorScope(user) => d.delegator == user
    case DelegateeScope(receiver) => d.delegatee == receiver
  }

  predicate Writes(scope: Scope) { !scope.DelegateeScope? }

  function Lookup<K, V>(m: map<K, V>, k: K): Option<V> { if k in m then Some(m[k]) else None }

  function Owner(dir: Directory, input: CreateInput, scope: Scope): Option<User> {
    var found := if scope.DelegatorScope? then Lookup(dir.byId, scope.user)
                 else match input.delegator case None => None case Some(name) => Lookup(dir.byName, name);
    if found.Some? && !found.value.deleted then found else None
  }

  function ClientOf(input: CreateInput, scope: Scope): Option<nat> {
    if scope.ClientScope? then Some(scope.client) else input.client
  }

  /** What a create request asks for, once all its names are resolved. */
  function Candidate(dir: Directory, input: CreateInput, scope: Scope): Result<Delegation> {
    var owner := Owner(dir, input, scope);
    var receiver := Lookup(dir.byName, input.delegatee);
    var client := ClientOf(input, scope);
    if !Writes(scope) || owner.None? || !owner.value.enabled then Err(Invalid)
    else if scope.DelegatorScope? && input.delegator.Some? && input.delegator.value != owner.value.username then Err(Invalid)
    else if receiver.None? || receiver.value.deleted || !receiver.value.enabled then Err(Invalid)
    else if client.None? || (scope.ClientScope? && input.client.Some? && input.client.value != scope.client) then Err(Invalid)
    else if client.value !in dir.clients || input.orgCode !in dir.organizations then Err(Invalid)
    else Ok(Delegation(owner.value.id, receiver.value.id, client.value, dir.organizations[input.orgCode],
                       input.start, input.end, Enable, input.description))
  }

  function Or<T>(o: Option<T>, d: T): T { match o case Some(v) => v case None => d }

  /** Only the period, the description and the status can change. */
  function Patched(d: Delegation, p: Patch): Delegation {
    d.(start := Or(p.start, d.start), end := Or(p.end, d.end),
       description := Or(p.description, d.description), status := Or(p.status, d.status))
  }

  predicate EmptyPatch(p: Patch) { p.start.None? && p.end.None? && p.description.None? && p.status.None? }

  predicate EndsOnly(p: Patch) {
    p.start.None? && p.end.None? && p.description.None? && p.status == Some(Disable)
  }

  /** The row an update would store; an ended delegation accepts only being ended again. */
  function UpdateOf(t: Tree, rows: map<nat, Delegation>, id: nat, patch: Patch, scope: Scope): Result<Delegation>
    requires WellFounded(t)
  {
    if !Writes(scope) then Err(Invalid)
    else if id !in rows || !Covers(scope, rows[id]) then Err(NotFound)
    else if rows[id].status.Disable? then (if EndsOnly(patch) then Ok(rows[id]) else Err(Ended))
    else if EmptyPatch(patch) then Err(Invalid)
    else Validated(t, rows, Patched(rows[id], patch), Some(id))
  }

  // ---- Interleaved transactions ----

  datatype Request = Create(input: CreateInput) | Update(id: nat, patch: Patch)

  /** `Locked`: the delegator's row is locked. `Checked`: the row to store is decided. */
  datatype Phase = Locked | Checked(row: Delegation)

  datatype Transaction = Transaction(request: Request, scope: Scope, owner: nat, phase: Phase)

  datatype State = State(rows: map<nat, Delegation>, nextId: nat, active: map<nat, Transaction>)

  datatype Step =
    | Begin(tx: nat, request: Request, scope: Scope)
    | Check(tx: nat)
    | Commit(tx: nat)
    | Rollback(tx: nat)

  predicate LockFree(s: State, owner: nat) {
    forall x :: x in s.active ==> s.active[x].owner != owner
  }

  /** The user row a request locks, if it gets that far. */
  function OwnerToLock(dir: Directory, s: State, request: Request, scope: Scope): Result<nat> {
    match request
    case Create(input) =>
      (match Owner(dir, input, scope) case None => Err(Invalid) case Some(u) => if Writes(scope) then Ok(u.id) else Err(Invalid))
    case Update(id, _) =>
      if !Writes(scope) then Err(Invalid)
      else if id !in s.rows || !Covers(scope, s.rows[id]) then Err(NotFound)
      else match Lookup(dir.byId, s.rows[id].delegator)
           case None => Err(OwnerMissing)
           case Some(u) => if u.deleted then Err(OwnerMissing) else Ok(s.rows[id].delegator)
  }

  function Decide(t: Tree, dir: Directory, s: State, x: Transaction): Result<Delegation>
    requires WellFounded(t)
  {
    match x.request
    case Create(input) =>
      (match Candidate(dir, input, x.scope)
       case Err(e) => Err(e)
       case Ok(candidate) => Validated(t, s.rows, candidate, None))
    case Update(id, patch) => UpdateOf(t, s.rows, id, patch, x.scope)
  }

  function Apply(t: Tree, dir: Directory, s: State, step: Step): State
    requires WellFounded(t)
  {
    match step
    case Begin(tx, request, scope) =>
      (match OwnerToLock(dir, s, request, scope)
       case Err(_) => s
       case Ok(owner) => s.(active := s.active[tx := Transaction(request, scope, owner, Locked)]))
    case Check(tx) =>
      if tx in s.active && s.active[tx].phase.Locked? then
        match Decide(t, dir, s, s.active[tx])
        case Err(_) => s.(active := s.active - {tx})
        case Ok(row) => s.(active := s.active[tx := s.active[tx].(phase := Checked(row))])
      else s
    case Commit(tx) =>
      if tx in s.active && s.active[tx].phase.Checked? then
        var row := s.active[tx].phase.row;
        match s.active[tx].request
        case Create(_) => State(s.rows[s.nextId := row], s.nextId + 1, s.active - {tx})
        case Update(id, _) => State(s.rows[id := row], s.nextId, s.active - {tx})
      else s
    case Rollback(tx) => s.(active := s.active - {tx})
  }

  /** A transaction starts under a new name and waits for the lock of its delegator. */
  ghost predicate Allowed(dir: Directory, s: State, step: Step) {
    match step
    case Begin(tx, request, scope) =>
      tx !in s.active
      && (match OwnerToLock(dir, s, request, scope) case Ok(owner) => LockFree(s, owner) case Err(_) => true)
    case _ => true
  }

  function Run(t: Tree, dir: Directory, s: State, steps: seq<Step>): State
    requires WellFounded(t)
  {
    if steps == [] then s else Apply(t, dir, Run(t, dir, s, steps[..|steps| - 1]), steps[|steps| - 1])
  }

  ghost predicate AllowedRun(t: Tree, dir: Directory, s: State, steps: seq<Step>)
    requires WellFounded(t)
  {
    forall i :: 0 <= i < |steps| ==> Allowed(dir, Run(t, dir, s, steps[..i]), steps[i])
  }

  // ---- The invariant ----

  ghost predicate Sane(d: Delegation) { d.delegator != d.delegatee && d.start < d.end }

  ghost predicate NoOverlaps(t: Tree, rows: map<nat, Delegation>)
    requires WellFounded(t)
  {
    forall i, j :: i in rows && j in rows && i != j && Open(rows[i]) && Open(rows[j]) ==> !Conflicts(t, rows[i], rows[j])
  }

  /** Same delegation in everything that identifies it. */
  predicate SameIdentity(a: Delegation, b: Delegation) {
    a.delegator == b.delegator && a.delegatee == b.delegatee && a.client == b.client && a.scope == b.scope
  }

  function Replaced(x: Transaction): Option<nat> {
    match x.request case Create(_) => None case Update(id, _) => Some(id)
  }

  /** A decided row still fits what is committed: nobody else can have written rows of its
      delegator in the meantime. */
  ghost predicate Fits(t: Tree, rows: map<nat, Delegation>, x: Transaction)
    requires WellFounded(t)
  {
    match x.phase
    case Locked => true
    case Checked(row) =>
      && Sane(row) && row.delegator == x.owner && ConflictFree(t, rows, row, Replaced(x))
      && match x.request
         case Create(_) => Open(row)
         case Update(id, _) =>
           id in rows && SameIdentity(rows[id], row) && (rows[id].status.Disable? ==> row == rows[id])
  }

  ghost predicate Inv(t: Tree, s: State)
    requires WellFounded(t)
  {
    NoOverlaps(t, s.rows) && RowsSane(s) && AllFit(t, s) && OwnersExclusive(s)
  }

  ghost predicate RowsSane(s: State) {
    forall id :: id in s.rows ==> id < s.nextId && Sane(s.rows[id])
  }

  ghost predicate AllFit(t: Tree, s: State)
    requires WellFounded(t)
  {
    forall x :: x in s.active ==> Fits(t, s.rows, s.active[x])
  }

  /** At most one transaction holds the lock of a user; an update holds its row's delegator. */
  ghost predicate OwnersExclusive(s: State) {
    && (forall x, y :: x in s.active && y in s.active && x != y ==> s.active[x].owner != s.active[y].owner)
    && (forall x :: x in s.active && s.active[x].request.Update? ==>
          s.active[x].request.id in s.rows && s.rows[s.active[x].request.id].delegator == s.active[x].owner)
  }

  lemma OverlapIsSymmetric(t: Tree, a: Delegation, b: Delegation)
    requires WellFounded(t) && Open(a) && Open(b)
    ensures Conflicts(t, a, b) <==> Conflicts(t, b, a)
  {}

  lemma DecisionFits(t: Tree, dir: Directory, s: State, x: Transaction)
    requires WellFounded(t) && RowsSane(s) && Decide(t, dir, s, x).Ok?
    requires x.request.Create? ==> Owner(dir, x.request.input, x.scope).Some? && Owner(dir, x.request.input, x.scope).value.id == x.owner
    requires x.request.Update? ==> x.request.id in s.rows && s.rows[x.request.id].delegator == x.owner
    ensures Fits(t, s.rows, x.(phase := Checked(Decide(t, dir, s, x).value)))
  {}

  lemma CheckKeeps(t: Tree, dir: Directory, s: State, tx: nat)
    requires WellFounded(t) && Inv(t, s) && OwnersFixed(dir, s) && tx in s.active && s.active[tx].phase.Locked?
    ensures Inv(t, Apply(t, dir, s, Check(tx)))
  {
    var x := s.active[tx];
    match Decide(t, dir, s, x) {
      case Err(_) => RollbackKeeps(t, dir, s, tx);
      case Ok(row) =>
        DecisionFits(t, dir, s, x);
        SameRowsFit(t, s, s.(active := s.active[tx := x.(phase := Checked(row))]));
        OwnersChange(s, tx, x.(phase := Checked(row)));
    }
  }

  /** A create that holds the lock of a user is a create for that user. */
  ghost predicate OwnersFixed(dir: Directory, s: State) {
    forall x :: x in s.active && s.active[x].request.Create? ==>
      var owner := Owner(dir, s.active[x].request.input, s.active[x].scope);
      owner.Some? && owner.value.id == s.active[x].owner
  }

  function Target(s: State, x: Transaction): nat {
    match x.request case Create(_) => s.nextId case Update(id, _) => id
  }

  lemma RowFits(t: Tree, s: State, x: Transaction, i: nat)
    requires WellFounded(t) && x.phase.Checked? && ConflictFree(t, s.rows, x.phase.row, Replaced(x))
    requires i in s.rows && i != Target(s, x) && Open(s.rows[i]) && Open(x.phase.row)
    ensures !Conflicts(t, s.rows[i], x.phase.row) && !Conflicts(t, x.phase.row, s.rows[i])
  {
    assert Some(i) != Replaced(x);
    OverlapIsSymmetric(t, s.rows[i], x.phase.row);
  }

  lemma CommitFitsRows(t: Tree, s: State, x: Transaction)
    requires WellFounded(t) && NoOverlaps(t, s.rows) && x.phase.Checked?
    requires ConflictFree(t, s.rows, x.phase.row, Replaced(x))
    ensures NoOverlaps(t, s.rows[Target(s, x) := x.phase.row])
  {
    var at, row := Target(s, x), x.phase.row;
    var rows := s.rows[at := row];
    forall i, j | i in rows && j in rows && i != j && Open(rows[i]) && Open(rows[j]) ensures !Conflicts(t, rows[i], rows[j]) {
      if j == at {
        RowFits(t, s, x, i);
      } else if i == at {
        RowFits(t, s, x, j);
      } else {
        assert rows[i] == s.rows[i] && rows[j] == s.rows[j];
      }
    }
  }

  /** A row of another delegator cannot disturb a decided row. */
  lemma OthersStillFit(t: Tree, s: State, n: State, at: nat, row: Delegation, y: Transaction)
    requires WellFounded(t) && Fits(t, s.rows, y) && n.rows == s.rows[at := row] && row.delegator != y.owner
    requires at in s.rows ==> s.rows[at].delegator == row.delegator
    requires y.request.Update? ==> y.request.id in s.rows && s.rows[y.request.id].delegator == y.owner
    ensures Fits(t, n.rows, y)
  {
    if y.phase.Checked? {
      forall id | id in n.rows && Some(id) != Replaced(y) && Open(y.phase.row) ensures !Conflicts(t, n.rows[id], y.phase.row) {
        if id != at { assert !Conflicts(t, s.rows[id], y.phase.row); }
      }
    }
  }

  lemma CommitKeeps(t: Tree, dir: Directory, s: State, tx: nat)
    requires WellFounded(t) && Inv(t, s) && tx in s.active && s.active[tx].phase.Checked?
    ensures Inv(t, Apply(t, dir, s, Commit(tx)))
  {
    var x := s.active[tx];
    var n := Apply(t, dir, s, Commit(tx));
    assert Fits(t, s.rows, x);
    assert n.rows == s.rows[Target(s, x) := x.phase.row];
    CommitFitsRows(t, s, x);
    forall y | y in n.active ensures Fits(t, n.rows, n.active[y]) {
      OthersStillFit(t, s, n, Target(s, x), x.phase.row, s.active[y]);
    }
  }

  lemma BeginKeeps(t: Tree, dir: Directory, s: State, tx: nat, x: Transaction)
    requires WellFounded(t) && Inv(t, s) && tx !in s.active && LockFree(s, x.owner) && x.phase.Locked?
    requires x.request.Update? ==> x.request.id in s.rows && s.rows[x.request.id].delegator == x.owner
    ensures Inv(t, s.(active := s.active[tx := x]))
  {
    SameRowsFit(t, s, s.(active := s.active[tx := x]));
    OwnersBegin(s, tx, x);
  }

  lemma OwnersBegin(s: State, tx: nat, x: Transaction)
    requires OwnersExclusive(s) && tx !in s.active && LockFree(s, x.owner)
    requires x.request.Update? ==> x.request.id in s.rows && s.rows[x.request.id].delegator == x.owner
    ensures OwnersExclusive(s.(active := s.active[tx := x]))
  {}

  lemma OwnersWithout(s: State, tx: nat)
    requires OwnersExclusive(s) && tx !in s.active
    ensures OwnersExclusive(s.(active := s.active - {tx}))
  {}

  lemma OwnersChange(s: State, tx: nat, x: Transaction)
    requires OwnersExclusive(s) && tx in s.active && x.owner == s.active[tx].owner && x.request == s.active[tx].request
    ensures OwnersExclusive(s.(active := s.active[tx := x])) && OwnersExclusive(s.(active := s.active - {tx}))
  {}

  lemma SameRowsFit(t: Tree, s: State, n: State)
    requires WellFounded(t) && AllFit(t, s) && n.rows == s.rows
    requires forall y :: y in n.active ==> Fits(t, s.rows, n.active[y]) || (y in s.active && n.active[y] == s.active[y])
    ensures AllFit(t, n)
  {}

  lemma RollbackKeeps(t: Tree, dir: Directory, s: State, tx: nat)
    requires WellFounded(t) && Inv(t, s)
    ensures Inv(t, s.(active := s.active - {tx}))
  {
    SameRowsFit(t, s, s.(active := s.active - {tx}));
    if tx in s.active { OwnersChange(s, tx, s.active[tx]); } else { OwnersWithout(s, tx); }
  }

  lemma OwnersStayFixed(t: Tree, dir: Directory, s: State, step: Step)
    requires WellFounded(t) && OwnersFixed(dir, s)
    ensures OwnersFixed(dir, Apply(t, dir, s, step))
  {}

  lemma ApplyKeeps(t: Tree, dir: Directory, s: State, step: Step)
    requires WellFounded(t) && Inv(t, s) && OwnersFixed(dir, s) && Allowed(dir, s, step)
    ensures Inv(t, Apply(t, dir, s, step))
  {
    match step {
      case Begin(tx, request, scope) =>
        var owner := OwnerToLock(dir, s, request, scope);
        if owner.Ok? { BeginKeeps(t, dir, s, tx, Transaction(request, scope, owner.value, Locked)); }
      case Check(tx) => if tx in s.active && s.active[tx].phase.Locked? { CheckKeeps(t, dir, s, tx); }
      case Commit(tx) => if tx in s.active && s.active[tx].phase.Checked? { CommitKeeps(t, dir, s, tx); }
      case Rollback(tx) => RollbackKeeps(t, dir, s, tx);
    }
  }

  const INITIAL := State(map[], 0, map[])

  lemma PrefixAllowed(t: Tree, dir: Directory, s: State, steps: seq<Step>)
    requires WellFounded(t) && AllowedRun(t, dir, s, steps) && steps != []
    ensures AllowedRun(t, dir, s, steps[..|steps| - 1])
    ensures Allowed(dir, Run(t, dir, s, steps[..|steps| - 1]), steps[|steps| - 1])
  {
    assert forall i :: 0 <= i < |steps| - 1 ==> steps[..|steps| - 1][..i] == steps[..i];
  }

  lemma {:induction false} RunKeeps(t: Tree, dir: Directory, s: State, steps: seq<Step>)
    requires WellFounded(t) && Inv(t, s) && OwnersFixed(dir, s) && AllowedRun(t, dir, s, steps)
    ensures Inv(t, Run(t, dir, s, steps)) && OwnersFixed(dir, Run(t, dir, s, steps))
  {
    if steps != [] {
      var before := Run(t, dir, s, steps[..|steps| - 1]);
      PrefixAllowed(t, dir, s, steps);
      RunKeeps(t, dir, s, steps[..|steps| - 1]);
      ApplyKeeps(t, dir, before, steps[|steps| - 1]);
      OwnersStayFixed(t, dir, before, steps[|steps| - 1]);
    }
  }

  // ---- What callers rely on ----

  predicate InForce(t: Tree, d: Delegation, organization: nat, instant: int)
    requires WellFounded(t)
  {
    Open(d) && d.start <= instant <= d.end && IsAncestor(t, d.scope, organization)
  }

  /** A create or update is refused for a conflict exactly when two delegations would be in
      force together somewhere at some time. */
  lemma ConflictIsSharedCoverage(t: Tree, existing: Delegation, candidate: Delegation)
    requires WellFounded(t) && Sane(existing) && Sane(candidate) && Open(candidate)
    ensures Conflicts(t, existing, candidate) <==>
      && existing.delegator == candidate.delegator && existing.client == candidate.client
      && exists o, i :: InForce(t, existing, o, i) && InForce(t, candidate, o, i)
  {
    if Conflicts(t, existing, candidate) {
      var o := if IsAncestor(t, existing.scope, candidate.scope) then candidate.scope else existing.scope;
      var i := if existing.start < candidate.start then candidate.start else existing.start;
      assert IsAncestor(t, o, o);
      assert InForce(t, existing, o, i) && InForce(t, candidate, o, i);
    }
    if o, i :| InForce(t, existing, o, i) && InForce(t, candidate, o, i) {
      AncestorsAreRelated(t, existing.scope, candidate.scope, o);
    }
  }

  lemma CoveringOnceIsUnique(t: Tree, rows: map<nat, Delegation>, i: nat, j: nat, organization: nat, instant: int)
    requires WellFounded(t) && NoOverlaps(t, rows) && i in rows && j in rows
    requires rows[i].delegator == rows[j].delegator && rows[i].client == rows[j].client
    requires InForce(t, rows[i], organization, instant) && InForce(t, rows[j], organization, instant)
    ensures i == j
  {
    AncestorsAreRelated(t, rows[i].scope, rows[j].scope, organization);
  }

  /** However creates and updates interleave, a delegator has at most one open delegation
      per application for any organization at any instant: the delegatee is unique. */
  lemma DelegateeIsUnique(t: Tree, dir: Directory, steps: seq<Step>, i: nat, j: nat, organization: nat, instant: int)
    requires WellFounded(t) && AllowedRun(t, dir, INITIAL, steps)
    requires
      var rows := Run(t, dir, INITIAL, steps).rows;
      && i in rows && j in rows && rows[i].delegator == rows[j].delegator && rows[i].client == rows[j].client
      && InForce(t, rows[i], organization, instant) && InForce(t, rows[j], organization, instant)
    ensures i == j
  {
    RunKeeps(t, dir, INITIAL, steps);
    CoveringOnceIsUnique(t, Run(t, dir, INITIAL, steps).rows, i, j, organization, instant);
  }

  /** Who delegates what to whom never changes, and an ended delegation stays as it is. */
  ghost predicate Continues(a: map<nat, Delegation>, b: map<nat, Delegation>) {
    forall id :: id in a ==>
      id in b && SameIdentity(a[id], b[id]) && (a[id].status.Disable? ==> b[id] == a[id])
  }

  lemma CommitContinues(t: Tree, s: State, x: Transaction)
    requires WellFounded(t) && Fits(t, s.rows, x) && x.phase.Checked? && RowsSane(s)
    ensures Continues(s.rows, s.rows[Target(s, x) := x.phase.row])
  {}

  lemma StepContinues(t: Tree, dir: Directory, s: State, step: Step)
    requires WellFounded(t) && AllFit(t, s) && RowsSane(s)
    ensures Continues(s.rows, Apply(t, dir, s, step).rows)
  {
    match step {
      case Commit(tx) =>
        if tx in s.active && s.active[tx].phase.Checked? { CommitContinues(t, s, s.active[tx]); }
      case _ =>
    }
  }

  lemma {:induction false} EndedStaysEnded(t: Tree, dir: Directory, s: State, steps: seq<Step>)
    requires WellFounded(t) && Inv(t, s) && OwnersFixed(dir, s) && AllowedRun(t, dir, s, steps)
    ensures Continues(s.rows, Run(t, dir, s, steps).rows)
  {
    if steps != [] {
      PrefixAllowed(t, dir, s, steps);
      EndedStaysEnded(t, dir, s, steps[..|steps| - 1]);
      RunKeeps(t, dir, s, steps[..|steps| - 1]);
      StepContinues(t, dir, Run(t, dir, s, steps[..|steps| - 1]), steps[|steps| - 1]);
    }
  }

  /** A caller decides only rows of its own scope. */
  lemma DecisionsStayInScope(t: Tree, dir: Directory, s: State, x: Transaction)
    requires WellFounded(t) && Decide(t, dir, s, x).Ok?
    requires forall u :: u in dir.byId ==> dir.byId[u].id == u
    ensures Covers(x.scope, Decide(t, dir, s, x).value)
    ensures x.request.Update? ==> x.request.id in s.rows && Covers(x.scope, s.rows[x.request.id])
  {}

  // ---- Search ----

  /** None stands for an absent filter. */
  datatype Query = Query(
    clients: Option<set<nat>>, delegators: Option<set<nat>>, delegatees: Option<set<nat>>, statuses: Option<set<Status>>,
    validTime: Option<int>, start: Option<int>, end: Option<int>, organizations: Option<set<nat>>)

  predicate Within<T(==)>(wanted: Option<set<T>>, value: T) { wanted.None? || value in wanted.value }

  predicate Found(t: Tree, q: Query, scope: Scope, d: Delegation)
    requires WellFounded(t)
  {
    && Covers(scope, d)
    && Within(q.clients, d.client) && Within(q.delegators, d.delegator) && Within(q.delegatees, d.delegatee)
    && Within(q.statuses, d.status)
    && (q.validTime.Some? ==> d.start <= q.validTime.value <= d.end)
    && (q.start.Some? ==> d.end >= q.start.value) && (q.end.Some? ==> d.start <= q.end.value)
    && (q.organizations.Some? ==> exists o :: o in q.organizations.value && IsAncestor(t, d.scope, o))
  }

  function Search(t: Tree, rows: map<nat, Delegation>, q: Query, scope: Scope): set<nat>
    requires WellFounded(t)
  {
    set id | id in rows && Found(t, q, scope, rows[id])
  }

  /** Asking for one delegator, application, organization and instant among delegations that
      have not ended finds at most one. */
  lemma SearchFindsAtMostOne(t: Tree, dir: Directory, steps: seq<Step>, q: Query, scope: Scope,
                             delegator: nat, client: nat, organization: nat, instant: int)
    requires WellFounded(t) && AllowedRun(t, dir, INITIAL, steps)
    requires q.delegators == Some({delegator}) && q.clients == Some({client})
    requires q.organizations == Some({organization}) && q.validTime == Some(instant)
    requires q.statuses.Some? && Disable !in q.statuses.value
    ensures |Search(t, Run(t, dir, INITIAL, steps).rows, q, scope)| <= 1
  {
    var rows := Run(t, dir, INITIAL, steps).rows;
    var found := Search(t, rows, q, scope);
    if i :| i in found {
      forall j | j in found ensures j == i {
        DelegateeIsUnique(t, dir, steps, i, j, organization, instant);
      }
      assert found == {i};
    }
  }
}
