// Delivering a finished Spec: accepting a final candidate, one squash commit on the
// invocation branch, then records, issue closing and removal of branches, and taking it up
// again after a crash (scripts/sandcastle/finalization.ts, delivery.ts, recovery.ts). Any
// command may fail or be the last one before a crash, with or without effect, and others may
// commit to the invocation branch at any time.
module Delivery {
  import opened Json

  // ---- The repository and the tracker ----

  datatype Trailer = Trailer(spec: nat, specBranch: nat, base: nat, reviewed: nat, candidate: nat)

  datatype Entry = Entry(sha: nat, parent: nat, tree: nat, trailer: Option<Trailer>)

  datatype Worktree = Attached | Gone | Doubtful

  /** `line` is the invocation branch, oldest commit first; `staged` the index of the main
      checkout when it differs from its head; `refs` the branches of the Spec; `base` and
      `record` the start base and the final handoff last recorded with the Spec. */
  datatype World = World(
    line: seq<Entry>, staged: Option<nat>, refs: map<nat, nat>, trees: map<nat, Worktree>, closed: set<nat>,
    base: nat, record: Option<Finalized>)

  datatype Work = Work(number: nat, branch: nat, candidate: nat)

  /** What never changes about one Spec. */
  datatype Job = Job(spec: nat, specBranch: nat, tickets: seq<Work>)

  /** The outcome of finalization; `trusted` says that the handoffs are complete and the
      recorded commits descend from each other, which are facts about immutable objects. */
  datatype Finalized = Finalized(trailer: Trailer, trusted: bool)

  /** What the agents would produce: the tip after merging a new base, if it merges; the final
      candidate; and whether review, repair and validation complete. */
  datatype Plan = Plan(merged: Option<nat>, candidate: nat, completed: bool)

  datatype Fault = Fine | FailsBefore | FailsAfter

  datatype Environment = Environment(
    interfere: (nat, World) -> World,
    refuses: nat -> bool,
    fault: nat -> Fault,
    freshSha: (nat, World) -> nat,
    squashTree: (nat, nat) -> nat,
    treeOf: nat -> nat)

  function Head(w: World): nat { if w.line == [] then 0 else w.line[|w.line| - 1].sha }

  predicate Carries(e: Entry, spec: nat) { e.trailer.Some? && e.trailer.value.spec == spec }

  function Carriers(line: seq<Entry>, spec: nat): seq<Entry> {
    if line == [] then [] else
      Carriers(line[..|line| - 1], spec) + if Carries(line[|line| - 1], spec) then [line[|line| - 1]] else []
  }

  /** A squash commit whose parent and tree are the ones its own trailer promises. */
  predicate Sound(env: Environment, e: Entry) {
    e.trailer.Some? && e.parent == e.trailer.value.base && e.tree == env.treeOf(e.trailer.value.candidate)
  }

  function Branches(job: Job): seq<(nat, nat)>
  {
    seq(|job.tickets|, i requires 0 <= i < |job.tickets| => (job.tickets[i].branch, job.tickets[i].candidate))
  }

  ghost predicate WellFormed(job: Job) {
    && (forall i, j :: 0 <= i < j < |job.tickets| ==> job.tickets[i].branch != job.tickets[j].branch)
    && (forall i :: 0 <= i < |job.tickets| ==> job.tickets[i].branch != job.specBranch && job.tickets[i].number != job.spec)
  }

  // ---- What holds at every moment, over all crashes and restarts ----

  ghost predicate TicketsClosed(job: Job, w: World) {
    forall i :: 0 <= i < |job.tickets| ==> job.tickets[i].number in w.closed
  }

  ghost predicate TicketBranchesGone(job: Job, w: World) {
    forall i :: 0 <= i < |job.tickets| ==> job.tickets[i].branch !in w.refs
  }

  ghost predicate Delivered(env: Environment, job: Job, w: World) {
    |Carriers(w.line, job.spec)| == 1 && Sound(env, Carriers(w.line, job.spec)[0])
  }

  ghost predicate Touched(job: Job, w: World) {
    job.spec in w.closed || exists i :: 0 <= i < |job.tickets| && job.tickets[i].number in w.closed
  }

  /** At most one delivery commit; nothing closed before it; the Spec closed after its
      tickets; no branch gone before that, and the Spec branch last. */
  ghost predicate Safe(env: Environment, job: Job, w: World) {
    && Linear(w.line) && |Carriers(w.line, job.spec)| <= 1
    && (Touched(job, w) ==> Delivered(env, job, w))
    && (job.spec in w.closed ==> TicketsClosed(job, w))
    && ((exists i :: 0 <= i < |job.tickets| && job.tickets[i].branch !in w.refs) ==> job.spec in w.closed)
    && (job.specBranch !in w.refs ==> job.spec in w.closed && TicketBranchesGone(job, w))
    && (forall b :: IsBranch(job, b) && b !in w.refs ==> b in w.trees && w.trees[b].Gone?)
  }

  /** What a restart relies on: the Spec's branches stand at their candidates, no worktree is
      in doubt and none is missing before the delivery commit, and that commit is the one the
      recorded handoff describes. */
  ghost predicate Intact(job: Job, w: World) {
    && (forall b :: IsBranch(job, b) ==> b in w.trees && !w.trees[b].Doubtful?)
    && (forall i :: 0 <= i < |job.tickets| && job.tickets[i].branch in w.refs ==>
         w.refs[job.tickets[i].branch] == job.tickets[i].candidate)
    && (w.record.Some? ==> w.record.value.trailer.spec == job.spec)
    && (Carriers(w.line, job.spec) == [] ==> forall b :: IsBranch(job, b) ==> w.trees[b].Attached?)
    && (Carriers(w.line, job.spec) != [] ==> Described(job, w, Carriers(w.line, job.spec)[0].trailer))
  }

  /** The recorded handoff is complete, stands where the Spec branch stands, and says `t`. */
  ghost predicate Described(job: Job, w: World, t: Option<Trailer>) {
    && job.tickets != [] && w.record.Some? && w.record.value.trusted
    && t == Some(w.record.value.trailer) && w.record.value.trailer.base == w.base
    && (job.specBranch in w.refs ==> w.refs[job.specBranch] == w.record.value.trailer.candidate)
  }

  ghost predicate Kept(env: Environment, job: Job, w: World) { Safe(env, job, w) && Intact(job, w) }

  ghost predicate IsBranch(job: Job, b: nat) {
    b == job.specBranch || exists i :: 0 <= i < |job.tickets| && job.tickets[i].branch == b
  }

  /** A first-parent history: every commit follows the one before it, and no two are the same. */
  ghost predicate Linear(line: seq<Entry>) {
    && (forall i, j :: 0 <= i && i + 1 == j < |line| ==> line[j].parent == line[i].sha)
    && (forall i, j :: 0 <= i < j < |line| ==> line[i].sha != line[j].sha)
    && line != []
  }

  ghost predicate Finished(env: Environment, job: Job, w: World) {
    && Delivered(env, job, w) && job.spec in w.closed && TicketsClosed(job, w)
    && TicketBranchesGone(job, w) && job.specBranch !in w.refs
  }

  /** Others only add commits, none of them a delivery of this Spec. */
  ghost predicate Tolerable(job: Job, w: World, v: World) {
    && w.line <= v.line && Linear(v.line) && Carriers(v.line, job.spec) == Carriers(w.line, job.spec)
    && Unmoved(w, v)
  }

  ghost predicate Plausible(env: Environment, job: Job) {
    && (forall n: nat, w: World :: Linear(w.line) ==> Tolerable(job, w, env.interfere(n, w)))
    && (forall n: nat, w: World, i: nat :: 0 <= i < |w.line| ==> env.freshSha(n, w) != w.line[i].sha)
  }

  /** Nothing fails and nobody else is at work. */
  ghost predicate Quiet(env: Environment) {
    && (forall n, w :: env.interfere(n, w) == w)
    && (forall n :: !env.refuses(n)) && (forall n :: env.fault(n) == Fine)
  }

  lemma ToleratedStaysKept(env: Environment, job: Job, w: World, v: World)
    requires Kept(env, job, w) && Tolerable(job, w, v)
    ensures Kept(env, job, v) && (Delivered(env, job, w) ==> Delivered(env, job, v))
  {}

  /** Where it starts: everything integrated, nothing delivered, closed or removed. */
  lemma StartIsKept(env: Environment, job: Job, w: World)
    requires WellFormed(job) && Linear(w.line) && Carriers(w.line, job.spec) == [] && w.closed == {} && w.record.None?
    requires forall b :: IsBranch(job, b) ==> b in w.refs && b in w.trees && w.trees[b].Attached?
    requires forall i :: 0 <= i < |job.tickets| && job.tickets[i].branch in w.refs ==>
      w.refs[job.tickets[i].branch] == job.tickets[i].candidate
    ensures Kept(env, job, w)
  {
    forall i | 0 <= i < |job.tickets| ensures job.tickets[i].branch in w.refs {
      assert IsBranch(job, job.tickets[i].branch);
    }
    assert IsBranch(job, job.specBranch);
  }

  // ---- One effect at a time ----

  datatype Effect =
    | Advance(branch: nat, tip: nat)
    | Rebase(start: nat)
    | Record(handoff: Option<Finalized>)
    | Stage(candidate: nat)
    | CommitSquash(trailer: Trailer)
    | Close(number: nat)
    | RemoveWorktree(branch: nat)
    | DeleteBranch(branch: nat, expected: nat)

  function After(env: Environment, sha: nat, w: World, effect: Effect): World {
    match effect
    case Advance(branch, tip) => w.(refs := w.refs[branch := tip])
    case Rebase(start) => w.(base := start)
    case Record(handoff) => w.(record := handoff)
    case Stage(candidate) => w.(staged := Some(env.squashTree(Head(w), candidate)))
    case CommitSquash(trailer) =>
      if w.staged.Some?
      then w.(line := w.line + [Entry(sha, Head(w), w.staged.value, Some(trailer))], staged := None)
      else w
    case Close(number) => w.(closed := w.closed + {number})
    case RemoveWorktree(branch) => w.(trees := w.trees[branch := Gone])
    case DeleteBranch(branch, expected) =>
      if branch in w.refs && w.refs[branch] == expected then w.(refs := w.refs - {branch}) else w
  }

  /** Committing an empty index and deleting a branch that has moved fail. */
  predicate Possible(w: World, effect: Effect) {
    match effect
    case CommitSquash(_) => w.staged.Some?
    case DeleteBranch(branch, expected) => branch in w.refs && w.refs[branch] == expected
    case _ => true
  }

  /** When an effect keeps the state safe and intact. */
  ghost predicate Due(env: Environment, job: Job, w: World, effect: Effect) {
    match effect
    case Advance(branch, _) => branch == job.specBranch && Carriers(w.line, job.spec) == []
    case Rebase(_) => Carriers(w.line, job.spec) == []
    case Record(handoff) =>
      && Carriers(w.line, job.spec) == []
      && (handoff.Some? ==> handoff.value.trailer.spec == job.spec)
    case Stage(_) => true
    case CommitSquash(trailer) => Carriers(w.line, job.spec) == [] && Described(job, w, Some(trailer))
    case Close(number) =>
      && Delivered(env, job, w)
      && (number == job.spec ==> TicketsClosed(job, w))
    case RemoveWorktree(_) => Delivered(env, job, w)
    case DeleteBranch(branch, _) =>
      && job.spec in w.closed && Delivered(env, job, w) && TicketsClosed(job, w)
      && branch in w.trees && w.trees[branch].Gone?
      && (branch == job.specBranch ==> TicketBranchesGone(job, w))
  }

  lemma CarriersAppend(line: seq<Entry>, e: Entry, spec: nat)
    ensures Carriers(line + [e], spec) == Carriers(line, spec) + if Carries(e, spec) then [e] else []
  {
    assert (line + [e])[..|line|] == line;
  }

  lemma CommitKeepsSafe(env: Environment, job: Job, sha: nat, w: World, trailer: Trailer)
    requires Kept(env, job, w) && WellFormed(job) && Due(env, job, w, CommitSquash(trailer))
    requires forall i :: 0 <= i < |w.line| ==> w.line[i].sha != sha
    ensures Safe(env, job, After(env, sha, w, CommitSquash(trailer)))
  {
    if w.staged.Some? {
      var e := Entry(sha, Head(w), w.staged.value, Some(trailer));
      CarriersAppend(w.line, e, job.spec);
      LinearAppend(w.line, e);
    }
  }

  lemma LinearAppend(line: seq<Entry>, e: Entry)
    requires Linear(line) && e.parent == line[|line| - 1].sha && forall i :: 0 <= i < |line| ==> line[i].sha != e.sha
    ensures Linear(line + [e])
  {}

  lemma DeletionKeepsSafe(env: Environment, job: Job, sha: nat, w: World, branch: nat, expected: nat)
    requires Kept(env, job, w) && WellFormed(job) && Due(env, job, w, DeleteBranch(branch, expected))
    ensures Safe(env, job, After(env, sha, w, DeleteBranch(branch, expected)))
  {}

  lemma OthersKeepSafe(env: Environment, job: Job, sha: nat, w: World, effect: Effect)
    requires Kept(env, job, w) && WellFormed(job) && Due(env, job, w, effect)
    requires !effect.CommitSquash? && !effect.DeleteBranch?
    ensures Safe(env, job, After(env, sha, w, effect))
  {}

  lemma DueKeepsSafe(env: Environment, job: Job, sha: nat, w: World, effect: Effect)
    requires Kept(env, job, w) && WellFormed(job) && Due(env, job, w, effect)
    requires forall i :: 0 <= i < |w.line| ==> w.line[i].sha != sha
    ensures Safe(env, job, After(env, sha, w, effect))
    ensures !effect.CommitSquash? ==> Carriers(After(env, sha, w, effect).line, job.spec) == Carriers(w.line, job.spec)
  {
    match effect {
      case CommitSquash(trailer) => CommitKeepsSafe(env, job, sha, w, trailer);
      case DeleteBranch(branch, expected) => DeletionKeepsSafe(env, job, sha, w, branch, expected);
      case _ => OthersKeepSafe(env, job, sha, w, effect);
    }
  }

  lemma DueKeepsIntact(env: Environment, job: Job, sha: nat, w: World, effect: Effect)
    requires Kept(env, job, w) && WellFormed(job) && Due(env, job, w, effect)
    ensures Intact(job, After(env, sha, w, effect))
  {
    if effect.CommitSquash? && w.staged.Some? {
      CarriersAppend(w.line, Entry(sha, Head(w), w.staged.value, Some(effect.trailer)), job.spec);
    }
  }

  lemma DueKeeps(env: Environment, job: Job, n: nat, w: World, effect: Effect)
    requires Plausible(env, job) && Kept(env, job, w) && WellFormed(job) && Due(env, job, w, effect)
    ensures Kept(env, job, After(env, env.freshSha(n, w), w, effect))
  {
    DueKeepsSafe(env, job, env.freshSha(n, w), w, effect);
    DueKeepsIntact(env, job, env.freshSha(n, w), w, effect);
  }

  // ---- Restarting ----

  datatype Restored = Stuck | Undelivered | Resumable(squash: Entry)

  /** What a restart concludes from the repository and the final handoff it finds. */
  function Restore(env: Environment, job: Job, w: World): Restored {
    var found := Carriers(w.line, job.spec);
    if job.specBranch !in w.refs || |found| > 1 || (job.spec in w.closed && found == []) then Stuck
    else if Unusable(job, w, found != []) then Stuck
    else if found == [] then Undelivered
    else if w.record.None? || !w.record.value.trusted then Stuck
    else if found[0].trailer != Some(w.record.value.trailer) || !Sound(env, found[0])
            || w.refs[job.specBranch] != w.record.value.trailer.candidate then Stuck
    else Resumable(found[0])
  }

  /** A worktree that is neither where it was nor properly removed; before the delivery
      commit none may be missing, nor any ticket branch. */
  predicate Unusable(job: Job, w: World, closing: bool) {
    || !TreeUsable(w, job.specBranch, closing)
    || exists i :: 0 <= i < |job.tickets| &&
         (!TreeUsable(w, job.tickets[i].branch, closing)
          || (if job.tickets[i].branch in w.refs then w.refs[job.tickets[i].branch] != job.tickets[i].candidate else !closing))
  }

  predicate TreeUsable(w: World, branch: nat, closing: bool) {
    branch in w.trees && (w.trees[branch].Attached? || (closing && w.trees[branch].Gone?))
  }

  /** The recorded handoff still stands: same base, and the Spec branch at its candidate. */
  predicate Current(job: Job, w: World) {
    && w.record.Some? && w.record.value.trailer.base == w.base
    && job.specBranch in w.refs && w.refs[job.specBranch] == w.record.value.trailer.candidate
  }

  function Acceptance(job: Job, base: nat, reviewed: nat, plan: Plan): Finalized {
    Finalized(Trailer(job.spec, job.specBranch, base, reviewed, plan.candidate), plan.completed)
  }

  /** What an undisturbed restart delivers when nothing is delivered yet: the recorded handoff
      while it stands, else a new acceptance, after merging the base if that has moved. */
  function Handoff(job: Job, w: World, plan: Plan): Option<Finalized> {
    if job.specBranch !in w.refs then None
    else if Head(w) == w.base then
      Some(if Current(job, w) then w.record.value else Acceptance(job, w.base, w.refs[job.specBranch], plan))
    else if plan.merged.None? then None
    else Some(Acceptance(job, Head(w), plan.merged.value, plan))
  }

  /** That handoff is complete, and squashing it at the head gives its candidate's tree. */
  predicate Feasible(env: Environment, job: Job, w: World, plan: Plan) {
    var handoff := Handoff(job, w, plan);
    && job.tickets != [] && handoff.Some? && handoff.value.trusted
    && env.squashTree(Head(w), handoff.value.trailer.candidate) == env.treeOf(handoff.value.trailer.candidate)
  }

  /** A restart decides exactly: nothing delivered, delivered and unfinished, or nothing it may
      do, which is when all is finished or the delivery commit is not the promised one. */
  lemma RestoreIsExact(env: Environment, job: Job, w: World)
    requires Kept(env, job, w)
    ensures Restore(env, job, w) == Undelivered <==> Carriers(w.line, job.spec) == []
    ensures Restore(env, job, w).Resumable? <==> Delivered(env, job, w) && !Finished(env, job, w)
    ensures
      Restore(env, job, w) == Stuck <==>
      Finished(env, job, w) || (Carriers(w.line, job.spec) != [] && !Delivered(env, job, w))
  {
    assert IsBranch(job, job.specBranch);
    forall i | 0 <= i < |job.tickets|
      ensures job.tickets[i].branch in w.trees && !w.trees[job.tickets[i].branch].Doubtful?
      ensures Carriers(w.line, job.spec) == [] ==> w.trees[job.tickets[i].branch].Attached?
    {
      assert IsBranch(job, job.tickets[i].branch);
    }
  }

  /** The promised commit: made at the base, from the candidate's tree. */
  predicate Meets(env: Environment, w: World, t: Trailer) {
    Head(w) == t.base && w.staged == Some(env.treeOf(t.candidate))
  }

  /** There is a delivery commit, but not the promised one. */
  ghost predicate Misdelivered(env: Environment, job: Job, w: World) {
    Carriers(w.line, job.spec) != [] && !Delivered(env, job, w)
  }

  /** A due commit delivers exactly when the branch still stands at the base and the index holds
      the candidate's tree; otherwise it leaves the Spec where no restart may go on. */
  lemma CommitDeliversExactly(env: Environment, job: Job, sha: nat, w: World, t: Trailer)
    requires Kept(env, job, w) && WellFormed(job) && w.staged.Some? && Due(env, job, w, CommitSquash(t))
    requires forall i :: 0 <= i < |w.line| ==> w.line[i].sha != sha
    ensures
      var v := After(env, sha, w, CommitSquash(t));
      && Kept(env, job, v)
      && (Delivered(env, job, v) <==> Meets(env, w, t))
      && (Misdelivered(env, job, v) <==> !Meets(env, w, t))
      && (Restore(env, job, v) == Stuck <==> !Meets(env, w, t))
  {
    var v := After(env, sha, w, CommitSquash(t));
    DueKeepsSafe(env, job, sha, w, CommitSquash(t));
    DueKeepsIntact(env, job, sha, w, CommitSquash(t));
    CarriersAppend(w.line, Entry(sha, Head(w), w.staged.value, Some(t)), job.spec);
    RestoreIsExact(env, job, v);
  }

  const SPEC := Job(1, 10, [Work(2, 20, 200)])

  const PROMISED := Trailer(1, 10, 5, 99, 100)

  /** One Spec with one ticket just before its delivery commit, on a branch that then stands
      as `line`. */
  function BeforeCommit(env: Environment, line: seq<Entry>): World {
    World(line, Some(env.treeOf(100)), map[10 := 100, 20 := 200], map[10 := Attached, 20 := Attached], {}, 5,
          Some(Finalized(PROMISED, true)))
  }

  /** Kept states exist, at the start and here. */
  lemma ReadyToCommit(env: Environment)
    ensures
      var w := BeforeCommit(env, [Entry(5, 0, 0, None)]);
      && WellFormed(SPEC) && Kept(env, SPEC, w) && Meets(env, w, PROMISED)
      && Tolerable(SPEC, w, BeforeCommit(env, [Entry(5, 0, 0, None), Entry(6, 5, 1, None)]))
  {
    var w := BeforeCommit(env, [Entry(5, 0, 0, None)]);
    assert w.line[..0] == [] && [Entry(5, 0, 0, None), Entry(6, 5, 1, None)][..1] == w.line;
  }

  /** That happens: the branch stood at the base when it was last looked at, and somebody
      commits before the delivery commit. */
  lemma MovedHeadStops(env: Environment)
    ensures
      var met := BeforeCommit(env, [Entry(5, 0, 0, None), Entry(6, 5, 1, None)]);
      var after := After(env, 8, met, CommitSquash(PROMISED));
      && Kept(env, SPEC, met) && Due(env, SPEC, met, CommitSquash(PROMISED))
      && Kept(env, SPEC, after) && Restore(env, SPEC, after) == Stuck && !Finished(env, SPEC, after)
  {
    var w := BeforeCommit(env, [Entry(5, 0, 0, None)]);
    var met := BeforeCommit(env, [Entry(5, 0, 0, None), Entry(6, 5, 1, None)]);
    ReadyToCommit(env);
    ToleratedStaysKept(env, SPEC, w, met);
    assert w.line[..0] == [];
    CommitDeliversExactly(env, SPEC, 8, met, PROMISED);
  }

  /** When an undisturbed restart finishes: the index is clean, and the Spec is delivered, or
      nothing is and the next handoff is feasible. */
  ghost predicate Restartable(env: Environment, job: Job, w: World, plan: Plan) {
    && w.staged.None?
    && if Carriers(w.line, job.spec) == [] then Feasible(env, job, w, plan) else Delivered(env, job, w)
  }

  // ---- The delivery itself ----

  /** Whether something is left to clean up; none when that cannot be told. */
  function Remaining(w: World, branch: nat, candidate: nat): Option<bool> {
    if branch in w.refs && w.refs[branch] != candidate then None
    else if branch !in w.trees || w.trees[branch].Doubtful? then None
    else if w.trees[branch].Gone? then Some(branch in w.refs)
    else if branch in w.refs then Some(true) else None
  }

  class Deliverer {
    const env: Environment
    const job: Job
    var world: World
    var moment: nat
    ghost var past: seq<World>  // every state the delivery has passed through

    ghost predicate Valid()
      reads this
    {
      && Plausible(env, job) && WellFormed(job)
      && past != [] && past[|past| - 1] == world
      && (forall w :: w in past ==> Kept(env, job, w))
    }

    lemma NowKept()
      requires Valid()
      ensures Kept(env, job, world)
    {
      assert past[|past| - 1] in past;
    }

    constructor (env: Environment, job: Job, world: World)
      requires Plausible(env, job) && WellFormed(job) && Kept(env, job, world)
      ensures Valid() && this.env == env && this.job == job && this.world == world
    {
      this.env, this.job, this.world, moment, past := env, job, world, 0, [world];
    }

    /** Time passes before a command; it may then be refused (abort, unstopped creators, a
        failing command). */
    method Pass() returns (ok: bool)
      requires Valid()
      modifies this
      ensures Valid() && old(past) <= past && Tolerable(job, old(world), world)
      ensures Quiet(env) ==> ok && world == old(world)
    {
      world := env.interfere(moment, world);
      ok := !env.refuses(moment);
      moment := moment + 1;
      ToleratedStaysKept(env, job, old(world), world);
      past := past + [world];
    }

    /** One effect; `before` is the state it met. A failing one may have happened. */
    method Do(effect: Effect) returns (ok: bool, ghost before: World, ghost sha: nat)
      requires Valid() && Due(env, job, world, effect)
      modifies this
      ensures Valid() && old(past) <= past && Tolerable(job, old(world), before)
      ensures world == before || world == After(env, sha, before, effect)
      ensures ok ==> world == After(env, sha, before, effect) && Possible(before, effect)
      ensures Quiet(env) ==> before == old(world) && (Possible(before, effect) ==> ok)
    {
      var passed := Pass();
      ok, before := false, world;
      var newSha := env.freshSha(moment, world);
      sha := newSha;
      if passed && env.fault(moment) != FailsBefore {
        NowKept();
        DueKeeps(env, job, moment, world, effect);
        ok := Possible(world, effect) && env.fault(moment).Fine?;
        world := After(env, newSha, world, effect);
        past := past + [world];
      }
      moment := moment + 1;
    }

    /** The main checkout stands clean at `head`, and the Spec's own worktree at its
        candidate, or in a resumed delivery already removed. */
    method Observe(head: nat, candidate: nat, resumed: bool) returns (ok: bool)
      requires Valid()
      modifies this
      ensures Valid() && old(past) <= past && Tolerable(job, old(world), world)
      ensures ok ==> Observable(job, world, head, candidate, resumed)
      ensures Quiet(env) ==> world == old(world) && ok == Observable(job, world, head, candidate, resumed)
    {
      ok := Pass();
      ok := ok && Observable(job, world, head, candidate, resumed);
    }

    /** Merge a moved base into the Spec branch and record it as the new start. */
    method Integrate(start: nat, merged: Option<nat>) returns (ok: bool)
      requires Valid() && Carriers(world.line, job.spec) == []
      modifies this
      ensures Valid() && old(past) <= past && Carriers(world.line, job.spec) == []
      ensures Quiet(env) ==> (ok <==> merged.Some?)
      ensures Quiet(env) && ok ==> world == old(world).(refs := old(world).refs[job.specBranch := merged.value], base := start)
      ensures Quiet(env) && !ok ==> world == old(world)
    {
      if merged.None? { return false; }
      ghost var before, sha;
      ok, before, sha := Do(Advance(job.specBranch, merged.value));
      if !ok { return; }
      ok, before, sha := Do(Rebase(start));
    }

    /** Review, repair and validation of the Spec branch, and the record of the outcome; a failed
        acceptance withdraws the record. */
    method Accept(plan: Plan) returns (ok: bool, finalized: Finalized)
      requires Valid() && Carriers(world.line, job.spec) == []
      modifies this
      ensures Valid() && old(past) <= past && Carriers(world.line, job.spec) == []
      ensures ok ==> world.record == Some(finalized) && Current(job, world)
      ensures Quiet(env) ==> (ok <==> job.tickets != [] && Acceptable(old(world), plan))
      ensures Quiet(env) && !ok ==> world.record.None?
      ensures
        Quiet(env) && ok ==>
        (&& job.specBranch in old(world).refs
         && finalized == Acceptance(job, old(world).base, old(world).refs[job.specBranch], plan)
         && world == old(world).(refs := old(world).refs[job.specBranch := plan.candidate], record := Some(finalized)))
    {
      SpecTreeStands(env, job, world);
      var tip := world.refs[job.specBranch];
      finalized := Acceptance(job, world.base, tip, plan);
      ok := false;
      if |job.tickets| > 0 { ok := Examine(finalized, tip, plan); }
      if !ok {
        ghost var done, before, sha;
        done, before, sha := Do(Record(None));
      }
    }

    method Examine(finalized: Finalized, tip: nat, plan: Plan) returns (ok: bool)
      requires Valid() && Carriers(world.line, job.spec) == [] && SpecStands(job, world, tip)
      requires finalized.trailer.spec == job.spec && finalized.trailer.candidate == plan.candidate
      modifies this
      ensures Valid() && old(past) <= past && Carriers(world.line, job.spec) == []
      ensures world.base == old(world).base
      ensures ok ==> world.record == Some(finalized) && SpecStands(job, world, plan.candidate)
      ensures Quiet(env) ==> (ok <==> Acceptable(old(world), plan))
      ensures
        Quiet(env) && ok ==>
        world == old(world).(refs := old(world).refs[job.specBranch := plan.candidate], record := Some(finalized))
    {
      ok := Observe(world.base, tip, false);
      if !ok { return; }
      ok := Repair(plan);
      if !ok { return; }
      SpecTreeStands(env, job, world);
      ok := RecordAcceptance(finalized);
    }

    method Repair(plan: Plan) returns (ok: bool)
      requires Valid() && Carriers(world.line, job.spec) == []
      modifies this
      ensures Valid() && old(past) <= past && Carriers(world.line, job.spec) == []
      ensures world.base == old(world).base
      ensures Quiet(env) ==> (ok <==> Acceptable(old(world), plan))
      ensures Quiet(env) ==> world == old(world).(refs := old(world).refs[job.specBranch := plan.candidate])
    {
      SpecTreeStands(env, job, world);
      ghost var before, sha;
      ok, before, sha := Do(Advance(job.specBranch, plan.candidate));
      if !ok { return; }
      ok := Observe(world.base, plan.candidate, false);
      ok := ok && plan.completed;
    }

    method RecordAcceptance(finalized: Finalized) returns (ok: bool)
      requires Valid() && Carriers(world.line, job.spec) == [] && finalized.trailer.spec == job.spec
      modifies this
      ensures Valid() && old(past) <= past && Carriers(world.line, job.spec) == []
      ensures world.base == old(world).base
      ensures ok ==> world.record == Some(finalized) && SpecStands(job, world, finalized.trailer.candidate)
      ensures Quiet(env) ==> world == old(world).(record := Some(finalized))
      ensures Quiet(env) ==> (ok <==> Observable(job, old(world), old(world).base, finalized.trailer.candidate, false))
    {
      ghost var before, sha;
      ok, before, sha := Do(Record(Some(finalized)));
      if !ok { return; }
      ok := Observe(world.base, finalized.trailer.candidate, false);
    }

    /** Before the delivery commit: merge a moved base, else keep a handoff that still stands,
        else accept the Spec branch anew. */
    method Prepare(plan: Plan) returns (ok: bool, finalized: Finalized)
      requires Valid() && Carriers(world.line, job.spec) == []
      modifies this
      ensures Valid() && old(past) <= past && Carriers(world.line, job.spec) == []
      ensures ok ==> world.record == Some(finalized) && Current(job, world)
      ensures
        Quiet(env) && ok ==>
        (&& Handoff(job, old(world), plan) == Some(finalized) && world.line == old(world).line
         && world.staged == old(world).staged && world.base == Head(world))
      ensures Quiet(env) && old(world).staged.None? && Feasible(env, job, old(world), plan) ==> ok
    {
      NowKept();
      SpecTreeStands(env, job, world);
      ok := Pass();
      finalized := Acceptance(job, world.base, 0, plan);
      if !ok { return; }
      var current := Head(world);
      if current != world.base {
        ok := Integrate(current, plan.merged);
        if !ok { return; }
      } else if Current(job, world) {
        finalized := world.record.value;
        return;
      }
      ok, finalized := Accept(plan);
    }

    /** Stage the squash and look again before committing. */
    method StageSquash(t: Trailer) returns (ok: bool)
      requires Valid()
      modifies this
      ensures Valid() && old(past) <= past && SameSpec(job, old(world), world)
      ensures ok ==> Head(world) == t.base && SpecStands(job, world, t.candidate)
      ensures Quiet(env) ==> (ok <==> Deliverable(env, job, old(world), t))
      ensures Quiet(env) && ok ==> world == old(world).(staged := Some(env.treeOf(t.candidate)))
    {
      ok := Observe(t.base, t.candidate, false);
      if !ok { return; }
      ghost var before, sha;
      ok, before, sha := Do(Stage(t.candidate));
      if !ok { return; }
      ok := Pass();
      // The index holds the candidate's tree and the branch has not moved.
      ok := ok && world.staged == Some(env.treeOf(t.candidate)) && Head(world) == t.base;
    }

    /** The delivery commit, verified: it is the only one for this Spec, directly on the
        review base, with the candidate's tree. */
    method CommitAndVerify(t: Trailer) returns (ok: bool)
      requires Valid() && Carriers(world.line, job.spec) == [] && Described(job, world, Some(t)) && Head(world) == t.base
      modifies this
      ensures Valid() && old(past) <= past && Unmoved(old(world), world)
      ensures ok ==> Delivered(env, job, world) && Carriers(world.line, job.spec)[0].sha == Head(world)
      ensures Quiet(env) && old(world).staged == Some(env.treeOf(t.candidate)) && SpecStands(job, old(world), t.candidate) ==>
        ok && Observable(job, world, Head(world), t.candidate, false)
    {
      NowKept();
      ghost var start := world.line;
      ghost var before, sha;
      ok, before, sha := Do(CommitSquash(t));
      if !ok { return; }
      ok := VerifyHead(t);
      if ok { DeliveryVerified(env, job, t, start, before, sha, world); }
    }

    /** The head as it stands now: observed, on the base, with the candidate's tree. */
    method VerifyHead(t: Trailer) returns (ok: bool)
      requires Valid()
      modifies this
      ensures Valid() && old(past) <= past && Tolerable(job, old(world), world)
      ensures ok ==> world.line[|world.line| - 1].parent == t.base && world.line[|world.line| - 1].tree == env.treeOf(t.candidate)
      ensures Quiet(env) ==> world == old(world)
      ensures
        (&& Quiet(env) && Observable(job, old(world), Head(old(world)), t.candidate, false)
         && old(world).line[|old(world).line| - 1].parent == t.base
         && old(world).line[|old(world).line| - 1].tree == env.treeOf(t.candidate)) ==> ok
    {
      ok := Pass();
      var head := Head(world);
      var again := Observe(head, t.candidate, false);
      if !ok || !again { return false; }
      var last := world.line[|world.line| - 1];
      ok := last.parent == t.base && last.tree == env.treeOf(t.candidate);
    }

    /** Everything up to the verified delivery commit. */
    method Squash(t: Trailer) returns (ok: bool)
      requires Valid() && Carriers(world.line, job.spec) == [] && job.tickets != []
      requires world.record.Some? && world.record.value.trusted && world.record.value.trailer == t && t.base == world.base
      modifies this
      ensures Valid() && old(past) <= past && Unmoved(old(world), world)
      ensures ok ==> Delivered(env, job, world) && Carriers(world.line, job.spec)[0].sha == Head(world)
      ensures Quiet(env) ==> (ok <==> Deliverable(env, job, old(world), t))
      ensures Quiet(env) && ok ==> Observable(job, world, Head(world), t.candidate, false)
      ensures Quiet(env) && !ok ==> Carriers(world.line, job.spec) == []
    {
      ok := StageSquash(t);
      if ok { ok := CommitAndVerify(t); }
    }

    /** Record and close every ticket, then the Spec. A resumed delivery skips what was
        already closed when it started. */
    method CloseIssues(head: nat, candidate: nat, resumed: bool, seen: set<nat>) returns (ok: bool)
      requires Valid() && Delivered(env, job, world) && (resumed ==> seen <= world.closed)
      modifies this
      ensures Valid() && old(past) <= past && Delivered(env, job, world) && OnlyClosing(env, old(world), world)
      ensures ok ==> job.spec in world.closed && TicketsClosed(job, world)
      ensures Quiet(env) && Observable(job, old(world), head, candidate, resumed) ==> ok
    {
      ok := Pass();
      if !ok { return; }
      for i := 0 to |job.tickets|
        invariant Valid() && old(past) <= past && Delivered(env, job, world) && OnlyClosing(env, old(world), world)
        invariant ClosedUpTo(job, world, i)
        invariant resumed ==> seen <= world.closed
        invariant Quiet(env) && Observable(job, old(world), head, candidate, resumed) ==>
          Observable(job, world, head, candidate, resumed)
      {
        ok := CloseOnce(job.tickets[i].number, head, candidate, resumed, seen);
        if !ok { return; }
      }
      ok := CloseOnce(job.spec, head, candidate, resumed, seen);
    }

    method CloseOnce(number: nat, head: nat, candidate: nat, resumed: bool, seen: set<nat>) returns (ok: bool)
      requires Valid() && Delivered(env, job, world) && (number == job.spec ==> TicketsClosed(job, world))
      requires resumed ==> seen <= world.closed
      modifies this
      ensures Valid() && old(past) <= past && Delivered(env, job, world) && OnlyClosing(env, old(world), world)
      ensures ok ==> number in world.closed
      ensures Quiet(env) && Observable(job, old(world), head, candidate, resumed) ==> ok
    {
      if resumed && number in seen { return true; }
      ok := RecordAndClose(number, head, candidate, resumed);
    }

    method RecordAndClose(number: nat, head: nat, candidate: nat, resumed: bool) returns (ok: bool)
      requires Valid() && Delivered(env, job, world) && (number == job.spec ==> TicketsClosed(job, world))
      modifies this
      ensures Valid() && old(past) <= past && Delivered(env, job, world) && OnlyClosing(env, old(world), world)
      ensures ok ==> number in world.closed
      ensures Quiet(env) && Observable(job, old(world), head, candidate, resumed) ==> ok
    {
      ok := Observe(head, candidate, resumed);
      if !ok { return; }
      ok := Pass();
      if !ok { return; }
      ok := Observe(head, candidate, resumed);
      if !ok { return; }
      ghost var before, sha;
      ok, before, sha := Do(Close(number));
    }

    /** Look at every worktree before the first removal. */
    method CheckCleanups(entries: seq<(nat, nat)>, resumed: bool) returns (ok: bool)
      requires Valid()
      modifies this
      ensures Valid() && old(past) <= past && Tolerable(job, old(world), world)
      ensures Quiet(env) ==> world == old(world)
      ensures Quiet(env) && (forall i :: 0 <= i < |entries| ==> Cleanable(world, entries[i], resumed)) ==> ok
    {
      ok := Pass();
      for i := 0 to |entries|
        invariant Valid() && old(past) <= past && Tolerable(job, old(world), world)
        invariant Quiet(env) ==> world == old(world)
        invariant Quiet(env) && (forall k :: 0 <= k < |entries| ==> Cleanable(world, entries[k], resumed)) ==> ok
      {
        var passed := Pass();
        ok := ok && passed && Cleanable(world, entries[i], resumed);
      }
    }

    /** Remove one worktree, then its branch at the expected commit. */
    method CleanUpOne(branch: nat, candidate: nat) returns (ok: bool)
      requires Valid() && Closed(env, job, world) && (branch == job.specBranch ==> TicketBranchesGone(job, world))
      modifies this
      ensures Valid() && old(past) <= past && Closed(env, job, world)
      ensures ok ==> branch !in world.refs
      ensures world.refs == old(world).refs || world.refs == old(world).refs - {branch}
      ensures world.trees == old(world).trees || world.trees == old(world).trees[branch := Gone]
      ensures Quiet(env) ==> world.line == old(world).line && world.staged == old(world).staged
      ensures Quiet(env) && Remaining(old(world), branch, candidate).Some? ==> ok
    {
      ok := Pass();
      var left := Remaining(world, branch, candidate);
      if !ok || left.None? { return false; }
      if !left.value { return true; }
      ok := RemoveTree(branch);
      if !ok { return; }
      ghost var before, sha;
      ok, before, sha := Do(DeleteBranch(branch, candidate));
    }

    /** The worktree is removed and seen to be gone. */
    method RemoveTree(branch: nat) returns (ok: bool)
      requires Valid() && branch in world.trees && Delivered(env, job, world)
      modifies this
      ensures Valid() && old(past) <= past && Carriers(world.line, job.spec) == Carriers(old(world).line, job.spec)
      ensures world.refs == old(world).refs && world.closed == old(world).closed
      ensures world.trees == old(world).trees || world.trees == old(world).trees[branch := Gone]
      ensures ok ==> world.trees == old(world).trees[branch := Gone]
      ensures Quiet(env) ==> world.line == old(world).line && world.staged == old(world).staged
      ensures Quiet(env) && !old(world).trees[branch].Doubtful? ==> ok
    {
      ghost var before, sha;
      if world.trees[branch].Attached? {
        ok, before, sha := Do(RemoveWorktree(branch));
        if !ok { return; }
      }
      ok := Pass();
      ok := ok && world.trees[branch].Gone?;
    }

    method CleanUp(candidate: nat, resumed: bool) returns (ok: bool)
      requires Valid() && Closed(env, job, world)
      modifies this
      ensures Valid() && old(past) <= past && Closed(env, job, world)
      ensures ok ==> Finished(env, job, world)
      ensures Quiet(env) ==> world.line == old(world).line && world.staged == old(world).staged
      ensures Quiet(env) && AllCleanable(job, old(world), candidate, resumed) ==> ok
    {
      var entries := Branches(job) + [(job.specBranch, candidate)];
      EntriesOf(job, candidate);
      ok := CheckCleanups(entries, resumed);
      if ok { ok := RemoveAll(candidate); }
    }

    /** Tickets first, the Spec branch last. */
    method RemoveAll(candidate: nat) returns (ok: bool)
      requires Valid() && Closed(env, job, world)
      modifies this
      ensures Valid() && old(past) <= past && Closed(env, job, world)
      ensures ok ==> Finished(env, job, world)
      ensures Quiet(env) ==> world.line == old(world).line && world.staged == old(world).staged
      ensures Quiet(env) && AllKnown(old(world), Branches(job) + [(job.specBranch, candidate)], 0) ==> ok
    {
      var entries := Branches(job) + [(job.specBranch, candidate)];
      EntriesOf(job, candidate);
      for i := 0 to |entries|
        invariant Valid() && old(past) <= past && Closed(env, job, world)
        invariant forall k :: 0 <= k < i ==> entries[k].0 !in world.refs
        invariant Quiet(env) ==> world.line == old(world).line && world.staged == old(world).staged
        invariant Quiet(env) && AllKnown(old(world), entries, 0) ==> AllKnown(world, entries, i)
      {
        ok := CleanUpOne(entries[i].0, entries[i].1);
        if !ok { return; }
      }
      ok := true;
    }

    /** Everything after the verified delivery commit. */
    method Complete(head: nat, candidate: nat, resumed: bool, seen: set<nat>) returns (ok: bool)
      requires Valid() && Delivered(env, job, world) && (resumed ==> seen <= world.closed)
      modifies this
      ensures Valid() && old(past) <= past && (ok ==> Finished(env, job, world))
      ensures
        (&& Quiet(env) && Observable(job, old(world), head, candidate, resumed)
         && AllCleanable(job, old(world), candidate, resumed)) ==> ok
    {
      ok := CloseIssues(head, candidate, resumed, seen);
      if !ok { return; }
      ok := Observe(head, candidate, resumed);
      if !ok { return; }
      ok := CleanUp(candidate, resumed);
      if !ok { return; }
      ok := Pass();
      ok := ok && Head(world) == head && world.staged.None?;
    }

    /** The whole delivery, first or resumed. */
    method Deliver(finalized: Finalized, resumed: bool, seen: set<nat>) returns (ok: bool)
      requires Valid() && world.record == Some(finalized)
      requires if resumed then Delivered(env, job, world) && seen <= world.closed else Carriers(world.line, job.spec) == []
      modifies this
      ensures Valid() && old(past) <= past && (ok ==> Finished(env, job, world))
      ensures
        Quiet(env) && resumed && job.specBranch in old(world).refs && old(world).staged.None? ==> ok
      ensures Quiet(env) && resumed && old(world).staged.Some? ==> !ok && world == old(world)
      ensures Quiet(env) && !resumed ==> (ok <==> Ready(env, job, old(world), finalized))
      ensures Quiet(env) && !resumed && !ok ==> Carriers(world.line, job.spec) == []
    {
      NowKept();
      var t := finalized.trailer;
      if t.base != world.base || !finalized.trusted || |job.tickets| == 0 { return false; }
      IntactIsCleanable(env, job, world, t.candidate);
      var head;
      if resumed {
        head := Head(world);
        ok := Observe(head, t.candidate, true);
      } else {
        ok := Squash(t);
        head := Head(world);
      }
      if ok { ok := Complete(head, t.candidate, resumed, seen); }
    }

    /** A restart: from a clean main checkout, restore and deliver what the repository says is
        left. Undisturbed, it finishes exactly what is restartable; a misdelivered Spec it leaves
        alone, disturbed or not. */
    method Restart(plan: Plan, seen: set<nat>) returns (ok: bool)
      requires Valid() && seen <= world.closed
      modifies this
      ensures Valid() && old(past) <= past && (ok ==> Finished(env, job, world))
      ensures
        Quiet(env) ==>
        (Finished(env, job, world) <==> Finished(env, job, old(world)) || Restartable(env, job, old(world), plan))
      ensures Quiet(env) ==> (ok <==> !Finished(env, job, old(world)) && Restartable(env, job, old(world), plan))
      ensures Quiet(env) && old(world).staged.Some? ==> world == old(world)
      ensures Misdelivered(env, job, old(world)) ==> !ok && SameSpec(job, old(world), world)
    {
      ok := Pass();
      if !ok || world.staged.Some? { return false; }
      NowKept();
      RestoreIsExact(env, job, world);
      match Restore(env, job, world) {
        case Stuck => ok := false;
        case Undelivered => ok := Begin(plan, seen);
        case Resumable(_) => ok := Deliver(world.record.value, true, seen);
      }
    }

    /** Nothing is delivered yet. */
    method Begin(plan: Plan, seen: set<nat>) returns (ok: bool)
      requires Valid() && Carriers(world.line, job.spec) == []
      modifies this
      ensures Valid() && old(past) <= past && (ok ==> Finished(env, job, world))
      ensures Quiet(env) && old(world).staged.None? ==> (ok <==> Feasible(env, job, old(world), plan))
      ensures Quiet(env) && !ok ==> Carriers(world.line, job.spec) == []
    {
      var finalized;
      ok, finalized := Prepare(plan);
      if !ok { return; }
      NowKept();
      SpecTreeStands(env, job, world);
      ok := Deliver(finalized, false, seen);
    }

    /** Any number of restarts, each with what its agents produce: every state on the way is
        safe and intact, and the Spec branch outlives everything else. */
    method Live(restarts: nat, plan: nat -> Plan)
      requires Valid()
      modifies this
      ensures Valid() && old(past) <= past && forall w :: w in past ==> Kept(env, job, w)
      ensures Delivered(env, job, world) ==> (job.specBranch !in world.refs <==> Finished(env, job, world))
      ensures Misdelivered(env, job, old(world)) ==> SameSpec(job, old(world), world) && !Finished(env, job, world)
    {
      for n := 0 to restarts
        invariant Valid() && old(past) <= past
        invariant Misdelivered(env, job, old(world)) ==> SameSpec(job, old(world), world)
      {
        var ok := Restart(plan(n), world.closed);
      }
      NowKept();
    }
  }

  /** Wherever a delivery, with all its restarts, was cut off: afterwards one undisturbed restart
      has everything finished exactly when it was, or when the state is restartable. */
  method Recover(cut: Deliverer, w: World, later: Environment, plan: Plan) returns (v: World)
    requires cut.Valid() && w in cut.past
    requires Plausible(later, cut.job) && Quiet(later) && later.treeOf == cut.env.treeOf
    ensures Finished(later, cut.job, v) <==> Finished(later, cut.job, w) || Restartable(later, cut.job, w, plan)
  {
    var next := new Deliverer(later, cut.job, w);
    var ok := next.Restart(plan, w.closed);
    v := next.world;
  }

  /** Before the delivery commit the Spec's own branch and worktree are there. */
  lemma SpecTreeStands(env: Environment, job: Job, w: World)
    requires Kept(env, job, w) && Carriers(w.line, job.spec) == []
    ensures job.specBranch in w.refs && SpecStands(job, w, w.refs[job.specBranch])
  {
    assert IsBranch(job, job.specBranch);
  }

  /** Where the commit stands or nothing is delivered, everything can be cleaned up in turn. */
  lemma IntactIsCleanable(env: Environment, job: Job, w: World, candidate: nat)
    requires Kept(env, job, w)
    ensures
      Delivered(env, job, w) && job.specBranch in w.refs && w.record.value.trailer.candidate == candidate ==>
      AllCleanable(job, w, candidate, true)
    ensures
      Carriers(w.line, job.spec) == [] && job.specBranch in w.refs && w.refs[job.specBranch] == candidate ==>
      AllCleanable(job, w, candidate, false)
  {
    assert IsBranch(job, job.specBranch);
    forall i | 0 <= i < |job.tickets| && Carriers(w.line, job.spec) != []
      ensures Cleanable(w, (job.tickets[i].branch, job.tickets[i].candidate), true)
    {
      assert IsBranch(job, job.tickets[i].branch);
    }
    forall i | 0 <= i < |job.tickets| && Carriers(w.line, job.spec) == []
      ensures Cleanable(w, (job.tickets[i].branch, job.tickets[i].candidate), false)
    {
      assert IsBranch(job, job.tickets[i].branch);
    }
  }

  /** While anything is left to do the Spec branch is still there, which is what makes a
      restart find the Spec again. */
  lemma SpecBranchGoesLast(env: Environment, job: Job, w: World)
    requires Safe(env, job, w) && Delivered(env, job, w)
    ensures job.specBranch !in w.refs <==> Finished(env, job, w)
  {}

  ghost predicate AllKnown(w: World, entries: seq<(nat, nat)>, from: nat) {
    forall k :: from <= k < |entries| ==> Remaining(w, entries[k].0, entries[k].1).Some?
  }

  /** The cleanup list names every branch once, the Spec branch last. */
  lemma EntriesOf(job: Job, candidate: nat)
    requires WellFormed(job)
    ensures
      var entries := Branches(job) + [(job.specBranch, candidate)];
      && |entries| == |job.tickets| + 1 && entries[|job.tickets|] == (job.specBranch, candidate)
      && (forall k :: 0 <= k < |job.tickets| ==> entries[k] == (job.tickets[k].branch, job.tickets[k].candidate))
      && (forall j, k :: 0 <= j < k < |entries| ==> entries[j].0 != entries[k].0)
  {}

  ghost predicate Closed(env: Environment, job: Job, w: World) {
    Delivered(env, job, w) && job.spec in w.closed && TicketsClosed(job, w)
  }

  /** The worktree check: in a first delivery it must still be there. */
  predicate Cleanable(w: World, entry: (nat, nat), resumed: bool) {
    Remaining(w, entry.0, entry.1).Some? && (resumed || (entry.0 in w.trees && w.trees[entry.0].Attached?))
  }

  predicate AllCleanable(job: Job, w: World, candidate: nat, resumed: bool) {
    && Cleanable(w, (job.specBranch, candidate), resumed)
    && forall i :: 0 <= i < |job.tickets| ==> Cleanable(w, (job.tickets[i].branch, job.tickets[i].candidate), resumed)
  }

  /** Branches and worktrees are untouched and nothing is reopened; undisturbed, the
      invocation branch and the index are untouched too. */
  ghost predicate OnlyClosing(env: Environment, w: World, v: World) {
    && v.refs == w.refs && v.trees == w.trees && w.closed <= v.closed
    && (Quiet(env) ==> v.line == w.line && v.staged == w.staged)
  }

  ghost predicate ClosedUpTo(job: Job, w: World, n: nat)
    requires n <= |job.tickets|
  {
    forall k :: 0 <= k < n ==> job.tickets[k].number in w.closed
  }

  /** Only the invocation branch and the index may have changed. */
  ghost predicate Unmoved(w: World, v: World) {
    v == w.(line := v.line, staged := v.staged)
  }

  ghost predicate SameSpec(job: Job, w: World, v: World) {
    Unmoved(w, v) && Carriers(v.line, job.spec) == Carriers(w.line, job.spec)
  }

  /** The head follows the base directly, so nothing came between or after. */
  lemma DeliveryVerified(env: Environment, job: Job, t: Trailer, start: seq<Entry>, before: World, sha: nat, w: World)
    requires start <= before.line && Linear(start) && start[|start| - 1].sha == t.base && t.spec == job.spec
    requires Carriers(before.line, job.spec) == [] && before.staged.Some?
    requires After(env, sha, before, CommitSquash(t)).line <= w.line && Linear(w.line)
    requires Carriers(w.line, job.spec) == Carriers(After(env, sha, before, CommitSquash(t)).line, job.spec)
    requires w.line[|w.line| - 1].parent == t.base && w.line[|w.line| - 1].tree == env.treeOf(t.candidate)
    ensures Delivered(env, job, w) && Carriers(w.line, job.spec)[0].sha == Head(w)
  {
    var e := Entry(sha, Head(before), before.staged.value, Some(t));
    CarriersAppend(before.line, e, job.spec);
    var n := |w.line| - 1;
    assert w.line[n].parent == w.line[n - 1].sha;
    assert w.line[|start| - 1] == start[|start| - 1];
    assert w.line[|before.line|] == e;
    assert n - 1 == |start| - 1;
    assert w.line[n] == e;
  }

  predicate Observable(job: Job, w: World, head: nat, candidate: nat, resumed: bool) {
    && w.line != [] && Head(w) == head && w.staged.None?
    && if resumed then Remaining(w, job.specBranch, candidate).Some? else SpecStands(job, w, candidate)
  }

  /** The Spec's branch and worktree are at the candidate. */
  predicate SpecStands(job: Job, w: World, candidate: nat) {
    && job.specBranch in w.refs && w.refs[job.specBranch] == candidate
    && job.specBranch in w.trees && w.trees[job.specBranch].Attached?
  }

  /** What an acceptance needs besides tickets. */
  predicate Acceptable(w: World, plan: Plan) {
    plan.completed && w.staged.None? && Head(w) == w.base
  }

  /** What a first delivery needs. */
  predicate Ready(env: Environment, job: Job, w: World, finalized: Finalized) {
    && finalized.trusted && finalized.trailer.base == w.base && job.tickets != []
    && Deliverable(env, job, w, finalized.trailer)
  }

  /** The main checkout is clean at the review base, and squashing there gives the tree of
      the candidate. */
  predicate Deliverable(env: Environment, job: Job, w: World, t: Trailer) {
    Observable(job, w, t.base, t.candidate, false) && env.squashTree(t.base, t.candidate) == env.treeOf(t.candidate)
  }
}
