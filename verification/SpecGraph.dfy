// The Spec/ticket dependency graph: loading it, finding cycles with a memo shared by all
// queries, and the frontier of executable tickets (scripts/sandcastle/specs.ts).
module SpecGraph {
  import opened Json

  datatype Issue = Issue(
    number: int, title: string, isOpen: bool, labels: set<string>, hasAssignee: bool,
    parent: Option<int>, blockers: seq<int>)

  datatype Graph = Graph(spec: Issue, tickets: seq<Issue>, dependencies: map<int, Issue>)

  datatype Progress = Progress(integrated: set<int>, delivered: set<int>, recoverable: set<int>)

  const READY_FOR_AGENT := "ready-for-agent"
  const TYPE_SPEC := "type:spec"
  const TYPE_TICKET := "type:ticket"

  predicate IsSpec(issue: Issue) { TYPE_SPEC in issue.labels && TYPE_TICKET !in issue.labels }
  predicate IsTicket(issue: Issue) { TYPE_TICKET in issue.labels && TYPE_SPEC !in issue.labels }

  // ---- Walks and cycles ----

  function Blockers(issues: map<int, Issue>, n: int): seq<int> {
    if n in issues then issues[n].blockers else []
  }

  ghost predicate Walk(issues: map<int, Issue>, p: seq<int>) {
    forall i, j :: 0 <= i && i + 1 == j < |p| ==> p[j] in Blockers(issues, p[i])
  }

  /** A walk from `n` that ends on an issue it has already visited. */
  ghost predicate Lasso(issues: map<int, Issue>, n: int, p: seq<int>) {
    |p| >= 2 && p[0] == n && Walk(issues, p) && p[|p| - 1] in p[..|p| - 1]
  }

  ghost predicate ReachesCycle(issues: map<int, Issue>, n: int) {
    exists p :: Lasso(issues, n, p)
  }

  lemma LassoExtends(issues: map<int, Issue>, n: int, b: int)
    requires b in Blockers(issues, n) && ReachesCycle(issues, b)
    ensures ReachesCycle(issues, n)
  {
    var p :| Lasso(issues, b, p);
    var q := [n] + p;
    assert q[..|q| - 1] == [n] + p[..|p| - 1];
    assert Lasso(issues, n, q);
  }

  lemma StackCloses(issues: map<int, Issue>, stack: seq<int>, n: int)
    requires Walk(issues, stack + [n]) && n in stack
    ensures ReachesCycle(issues, n)
  {
    var i :| 0 <= i < |stack| && stack[i] == n;
    var p := (stack + [n])[i..];
    assert p[..|p| - 1] == stack[i..] && stack[i..][0] == n;
    assert forall k :: 0 <= k < |p| ==> p[k] == (stack + [n])[i + k];
    assert Lasso(issues, n, p);
  }

  /** `order` lists issues after everything they are blocked by. */
  ghost predicate Settled(issues: map<int, Issue>, order: seq<int>) {
    forall i :: 0 <= i < |order| ==>
      forall b :: b in Blockers(issues, order[i]) ==> exists j :: 0 <= j < i && order[j] == b
  }

  /** A walk from a settled issue moves strictly towards the front of the order. */
  lemma {:induction false} WalkDescends(issues: map<int, Issue>, order: seq<int>, p: seq<int>, top: nat)
    requires Settled(issues, order) && Walk(issues, p) && p != [] && top < |order| && p[0] == order[top]
    ensures forall k :: 0 < k < |p| ==> p[k] in order[..top]
    decreases |p|
  {
    if |p| > 1 {
      assert p[1] in Blockers(issues, p[0]);
      var j :| 0 <= j < top && order[j] == p[1];
      assert forall k :: 0 <= k < |p| - 1 ==> p[1..][k] == p[k + 1];
      WalkDescends(issues, order, p[1..], j);
      forall k | 0 < k < |p| ensures p[k] in order[..top] {
        if k == 1 { assert order[..top][j] == p[1]; }
        else {
          assert p[1..][k - 1] in order[..j];
          var m :| 0 <= m < j && order[..j][m] == p[k];
          assert order[..top][m] == p[k];
        }
      }
    }
  }

  ghost predicate NoRepeats(order: seq<int>) {
    forall i, j :: 0 <= i < j < |order| ==> order[i] != order[j]
  }

  lemma NeverReturns(issues: map<int, Issue>, order: seq<int>, p: seq<int>, top: nat)
    requires Settled(issues, order) && NoRepeats(order) && Walk(issues, p) && |p| >= 2
    requires top < |order| && p[0] == order[top]
    ensures p[|p| - 1] != p[0]
  {
    WalkDescends(issues, order, p, top);
  }

  lemma SettledIsAcyclic(issues: map<int, Issue>, order: seq<int>, top: nat)
    requires Settled(issues, order) && NoRepeats(order) && top < |order|
    ensures !ReachesCycle(issues, order[top])
  {
    forall p ensures !Lasso(issues, order[top], p) {
      if |p| >= 2 && p[0] == order[top] && Walk(issues, p) {
        var last := |p| - 1;
        WalkDescends(issues, order, p, top);
        forall i | 0 <= i < last ensures p[i] != p[last] {
          var tail := p[i..];
          assert forall k :: 0 <= k < |tail| ==> tail[k] == p[i + k];
          var at: nat :| at < |order| && order[at] == p[i];
          NeverReturns(issues, order, tail, at);
        }
      }
    }
  }

  /** A finished issue whose blockers are all settled is settled next. */
  lemma SettleNext(issues: map<int, Issue>, order: seq<int>, n: int)
    requires Settled(issues, order) && NoRepeats(order) && n !in order
    requires forall b :: b in Blockers(issues, n) ==> b in order
    ensures Settled(issues, order + [n]) && NoRepeats(order + [n])
  {
    var longer := order + [n];
    forall i | 0 <= i < |longer|
      ensures forall b :: b in Blockers(issues, longer[i]) ==> exists j :: 0 <= j < i && longer[j] == b
    {
      forall b | b in Blockers(issues, longer[i]) ensures exists j :: 0 <= j < i && longer[j] == b {
        var j :| 0 <= j < |order| && order[j] == b && (i < |order| ==> j < i);
        assert longer[j] == b;
      }
    }
  }

  // ---- The memoised search ----

  ghost predicate Cleared(memo: map<int, bool>, blockers: seq<int>) {
    forall b :: b in blockers ==> b in memo && !memo[b]
  }

  lemma StillCleared(before: map<int, bool>, after: map<int, bool>, blockers: seq<int>, i: nat)
    requires i < |blockers| && Cleared(before, blockers[..i]) && Remembers(before, after)
    requires blockers[i] in after && !after[blockers[i]]
    ensures Cleared(after, blockers[..i + 1])
  {
    assert blockers[..i + 1] == blockers[..i] + [blockers[i]];
  }

  ghost predicate Remembers(before: map<int, bool>, after: map<int, bool>) {
    forall n :: n in before ==> n in after && after[n] == before[n]
  }

  class CycleSearch {
    const issues: map<int, Issue>
    var memo: map<int, bool>
    ghost var order: seq<int>  // the issues memoised false, in the order they were settled

    ghost predicate Valid()
      reads this
    {
      && (forall n :: n in memo && memo[n] ==> ReachesCycle(issues, n))
      && (forall n :: n in memo && !memo[n] <==> n in order)
      && NoRepeats(order)
      && Settled(issues, order)
    }

    constructor (issues: map<int, Issue>)
      ensures Valid() && this.issues == issues
    {
      this.issues, memo, order := issues, map[], [];
    }

    lemma Answered(n: int)
      requires Valid() && n in memo
      ensures memo[n] <==> ReachesCycle(issues, n)
    {
      if !memo[n] {
        var i :| 0 <= i < |order| && order[i] == n;
        SettledIsAcyclic(issues, order, i);
      }
    }

    /** Exact on every graph, from every memo that earlier queries can have left. */
    method Cyclic(number: int, path: set<int>, ghost stack: seq<int>) returns (result: bool)
      requires Valid()
      requires path <= issues.Keys && (forall n :: n in path <==> n in stack)
      requires Walk(issues, stack + [number]) && path !! memo.Keys
      modifies this
      ensures Valid() && path !! memo.Keys
      ensures result <==> ReachesCycle(issues, number)
      ensures !result ==> number in memo && !memo[number]
      ensures Remembers(old(memo), memo)
      decreases |issues.Keys - path|
    {
      if number in memo {
        Answered(number);
        return memo[number];
      }
      if number in path {
        StackCloses(issues, stack, number);
        return true;
      }
      result := false;
      if number in issues {
        var next := path + {number};
        var blockers := issues[number].blockers;
        var i := 0;
        assert issues.Keys - next < issues.Keys - path by { assert number in issues.Keys - path; }
        Smaller(issues.Keys - next, issues.Keys - path);
        while i < |blockers| && !result
          invariant i <= |blockers| && Valid() && next !! memo.Keys && Remembers(old(memo), memo)
          invariant result ==> ReachesCycle(issues, number)
          invariant !result ==> Cleared(memo, blockers[..i])
        {
          ghost var longer := stack + [number];
          assert forall k :: 0 <= k < |longer| ==> (longer + [blockers[i]])[k] == longer[k];
          ghost var before := memo;
          result := Cyclic(blockers[i], next, longer);
          if !result { StillCleared(before, memo, blockers, i); }
          if result { LassoExtends(issues, number, blockers[i]); }
          i := i + 1;
        }
      }
      if number in issues { assert issues[number].blockers[..|issues[number].blockers|] == issues[number].blockers; }
      Remember(number, result);
    }

    method Remember(number: int, result: bool)
      requires Valid() && number !in memo && (result ==> ReachesCycle(issues, number))
      requires !result ==> Cleared(memo, Blockers(issues, number))
      modifies this`memo, this`order
      ensures Valid() && memo == old(memo)[number := result]
      ensures result <==> ReachesCycle(issues, number)
    {
      if !result {
        SettleNext(issues, order, number);
        order := order + [number];
      }
      memo := memo[number := result];
      Answered(number);
    }
  }

  lemma Smaller(a: set<int>, b: set<int>)
    requires a < b
    ensures |a| < |b|
  {
    assert b == a + (b - a);
    assert b - a != {};
  }

  // ---- Loading the graph ----

  /** The issue a number stands for while a Spec is loaded: the listed Spec itself, and
      the tracker's record for everything else. */
  function World(tracker: map<int, Issue>, children: seq<int>, spec: Issue): map<int, Issue> {
    if spec.number in children then tracker else tracker[spec.number := spec]
  }

  predicate IsRoot(children: seq<int>, spec: Issue, n: int) {
    n == spec.number || n in children || n in spec.blockers
  }

  ghost predicate ReachedBy(tracker: map<int, Issue>, children: seq<int>, spec: Issue, n: int, p: seq<int>) {
    && p != [] && IsRoot(children, spec, p[0]) && p[|p| - 1] == n
    && Walk(World(tracker, children, spec), p)
  }

  ghost predicate Reachable(tracker: map<int, Issue>, children: seq<int>, spec: Issue, n: int) {
    exists p :: ReachedBy(tracker, children, spec, n, p)
  }

  lemma ReachesBlocker(tracker: map<int, Issue>, children: seq<int>, spec: Issue, n: int, b: int)
    requires Reachable(tracker, children, spec, n) && b in Blockers(World(tracker, children, spec), n)
    ensures Reachable(tracker, children, spec, b)
  {
    var p :| ReachedBy(tracker, children, spec, n, p);
    assert ReachedBy(tracker, children, spec, b, p + [b]);
  }

  lemma RootIsReachable(tracker: map<int, Issue>, children: seq<int>, spec: Issue, n: int)
    requires IsRoot(children, spec, n)
    ensures Reachable(tracker, children, spec, n)
  {
    assert ReachedBy(tracker, children, spec, n, [n]);
  }

  ghost predicate Contains(dependencies: map<int, Issue>, blockers: seq<int>) {
    forall b :: b in blockers ==> b in dependencies
  }

  /** Every dependency outside `unfinished` has all its blockers loaded too. */
  ghost predicate ClosedExcept(dependencies: map<int, Issue>, unfinished: set<int>) {
    forall n :: n in dependencies && n !in unfinished ==> Contains(dependencies, dependencies[n].blockers)
  }

  class Loader {
    const tracker: map<int, Issue>
    const children: seq<int>
    const spec: Issue
    var dependencies: map<int, Issue>

    ghost predicate Valid()
      reads this
    {
      forall n :: n in dependencies ==>
        && Reachable(tracker, children, spec, n)
        && n in World(tracker, children, spec)
        && dependencies[n] == World(tracker, children, spec)[n]
    }

    constructor (tracker: map<int, Issue>, children: seq<int>, spec: Issue, roots: map<int, Issue>)
      requires forall n :: n in roots ==>
        IsRoot(children, spec, n) && n in World(tracker, children, spec) && roots[n] == World(tracker, children, spec)[n]
      ensures Valid() && dependencies == roots
      ensures this.tracker == tracker && this.children == children && this.spec == spec
    {
      this.tracker, this.children, this.spec, dependencies := tracker, children, spec, roots;
      new;
      forall n | n in roots ensures Reachable(tracker, children, spec, n) { RootIsReachable(tracker, children, spec, n); }
    }

    /** False when an issue on the way cannot be read. */
    method Visit(issue: Issue, ghost unfinished: set<int>) returns (ok: bool)
      requires Valid() && ClosedExcept(dependencies, unfinished)
      requires forall b :: b in issue.blockers ==> Reachable(tracker, children, spec, b)
      modifies this
      ensures Valid() && old(dependencies.Keys) <= dependencies.Keys
      ensures ok ==> ClosedExcept(dependencies, unfinished) && Contains(dependencies, issue.blockers)
      ensures !ok ==> exists n :: Reachable(tracker, children, spec, n) && n !in World(tracker, children, spec)
      decreases |World(tracker, children, spec).Keys - dependencies.Keys|
    {
      for i := 0 to |issue.blockers|
        invariant Valid() && ClosedExcept(dependencies, unfinished) && old(dependencies.Keys) <= dependencies.Keys
        invariant Contains(dependencies, issue.blockers[..i])
      {
        var number := issue.blockers[i];
        assert issue.blockers[..i + 1] == issue.blockers[..i] + [number];
        if number !in dependencies {
          var world := World(tracker, children, spec);
          if number !in world { return false; }
          ghost var before := dependencies;
          var blocker := world[number];
          dependencies := dependencies[number := blocker];
          forall b | b in blocker.blockers ensures Reachable(tracker, children, spec, b) {
            ReachesBlocker(tracker, children, spec, number, b);
          }
          assert number in world.Keys - before.Keys;
          Smaller(world.Keys - dependencies.Keys, world.Keys - old(dependencies.Keys));
          ok := Visit(blocker, unfinished + {number});
          if !ok { return; }
        }
      }
      assert issue.blockers[..|issue.blockers|] == issue.blockers;
      ok := true;
    }
  }

  lemma {:induction false} ClosedContainsWalks(tracker: map<int, Issue>, children: seq<int>, spec: Issue,
                                               dependencies: map<int, Issue>, p: seq<int>)
    requires forall n :: n in dependencies ==>
      n in World(tracker, children, spec) && dependencies[n] == World(tracker, children, spec)[n]
    requires ClosedExcept(dependencies, {})
    requires |p| >= 1 && p[0] in dependencies && Walk(World(tracker, children, spec), p)
    ensures p[|p| - 1] in dependencies
  {
    if |p| > 1 {
      var init := p[..|p| - 1];
      assert forall i :: 0 <= i < |init| - 1 ==> p[i + 1] in Blockers(World(tracker, children, spec), p[i]);
      ClosedContainsWalks(tracker, children, spec, dependencies, init);
      var x, last := init[|init| - 1], p[|p| - 1];
      assert p[|p| - 2 + 1] in Blockers(World(tracker, children, spec), p[|p| - 2]);
      assert x in dependencies && last in dependencies[x].blockers;
      assert Contains(dependencies, dependencies[x].blockers);
      assert last in dependencies;
    }
  }

  method ReadTickets(tracker: map<int, Issue>, children: seq<int>, spec: Issue)
    returns (tickets: Option<seq<Issue>>, roots: map<int, Issue>)
    ensures tickets.None? ==> exists n :: Reachable(tracker, children, spec, n) && n !in World(tracker, children, spec)
    ensures tickets.Some? ==>
      && |tickets.value| == |children|
      && (forall k :: 0 <= k < |children| ==> children[k] in tracker && tickets.value[k] == tracker[children[k]])
      && (forall n :: n in roots <==> n == spec.number || n in children)
      && (forall n :: n in roots ==> n in World(tracker, children, spec) && roots[n] == World(tracker, children, spec)[n])
  {
    var read: seq<Issue> := [];
    roots := map[spec.number := spec];
    for i := 0 to |children|
      invariant |read| == i && forall k :: 0 <= k < i ==> children[k] in tracker && read[k] == tracker[children[k]]
      invariant forall n :: n in roots <==> n == spec.number || n in children[..i]
      invariant forall n :: n in roots ==> roots[n] == if n in children[..i] then tracker[n] else spec
    {
      if children[i] !in tracker {
        RootIsReachable(tracker, children, spec, children[i]);
        return None, roots;
      }
      assert children[..i + 1] == children[..i] + [children[i]];
      read := read + [tracker[children[i]]];
      roots := roots[children[i] := tracker[children[i]]];
    }
    assert children[..|children|] == children;
    tickets := Some(read);
  }

  /** The loaded dependencies are exactly what the blocker relation reaches from the Spec
      and its tickets; loading fails exactly when one of those cannot be read. */
  method LoadSpecGraph(tracker: map<int, Issue>, children: seq<int>, spec: Issue) returns (loaded: Option<Graph>)
    ensures loaded.Some? <==> forall n :: Reachable(tracker, children, spec, n) ==> n in World(tracker, children, spec)
    ensures loaded.Some? ==>
      var g := loaded.value;
      && g.spec == spec
      && |g.tickets| == |children| && (forall i :: 0 <= i < |children| ==> children[i] in tracker && g.tickets[i] == tracker[children[i]])
      && (forall n :: n in g.dependencies <==> Reachable(tracker, children, spec, n))
      && (forall n :: n in g.dependencies ==> g.dependencies[n] == World(tracker, children, spec)[n])
      && ClosedExcept(g.dependencies, {})
  {
    var tickets, roots := ReadTickets(tracker, children, spec);
    if tickets.None? { return None; }
    var loader := new Loader(tracker, children, spec, roots);
    var entries := [spec] + tickets.value;
    for i := 0 to |entries|
      invariant loader.Valid() && ClosedExcept(loader.dependencies, roots.Keys) && roots.Keys <= loader.dependencies.Keys
      invariant forall k :: 0 <= k < i ==> Contains(loader.dependencies, entries[k].blockers)
    {
      forall b | b in entries[i].blockers ensures Reachable(tracker, children, spec, b) {
        if i == 0 { RootIsReachable(tracker, children, spec, b); }
        else {
          RootIsReachable(tracker, children, spec, children[i - 1]);
          ReachesBlocker(tracker, children, spec, children[i - 1], b);
        }
      }
      var ok := loader.Visit(entries[i], roots.Keys);
      if !ok { return None; }
    }
    assert entries[0] == spec && forall k :: 0 <= k < |children| ==> entries[k + 1] == tickets.value[k];
    LoadIsComplete(tracker, children, spec, loader.dependencies);
    loaded := Some(Graph(spec, tickets.value, loader.dependencies));
  }

  lemma LoadIsComplete(tracker: map<int, Issue>, children: seq<int>, spec: Issue, dependencies: map<int, Issue>)
    requires forall n :: n in dependencies ==>
      n in World(tracker, children, spec) && dependencies[n] == World(tracker, children, spec)[n]
    requires ClosedExcept(dependencies, {}) && (forall n :: IsRoot(children, spec, n) ==> n in dependencies)
    ensures forall n :: Reachable(tracker, children, spec, n) ==> n in dependencies
  {
    forall n | Reachable(tracker, children, spec, n) ensures n in dependencies {
      var p :| ReachedBy(tracker, children, spec, n, p);
      ClosedContainsWalks(tracker, children, spec, dependencies, p);
    }
  }

  // ---- The frontier ----

  datatype Reason =
    | PrerequisiteMisplaced(number: int)
    | PrerequisiteUnmet(number: int)
    | SpecCycle
    | SpecNotAdmitted
    | SpecClaimed
    | TypeConflict
    | ParentMismatch
    | Cycle
    | NotAdmitted
    | Claimed

  datatype Blocked = Blocked(number: int, reasons: seq<Reason>)

  function FindTicket(tickets: seq<Issue>, n: int): (found: Option<Issue>)
    ensures found.Some? ==> found.value in tickets && found.value.number == n
  {
    if tickets == [] then None
    else if tickets[0].number == n then Some(tickets[0])
    else FindTicket(tickets[1..], n)
  }

  predicate Met(g: Graph, progress: Progress, n: int) {
    match FindTicket(g.tickets, n)
    case Some(local) => IsTicket(local) && local.parent == Some(g.spec.number) && n in progress.integrated
    case None => n in progress.delivered
  }

  function Prerequisite(g: Graph, progress: Progress, n: int): seq<Reason> {
    match FindTicket(g.tickets, n)
    case Some(local) =>
      if !IsTicket(local) || local.parent != Some(g.spec.number) then [PrerequisiteMisplaced(n)]
      else if n in progress.integrated then [] else [PrerequisiteUnmet(n)]
    case None => if n in progress.delivered then [] else [PrerequisiteUnmet(n)]
  }

  function Prerequisites(g: Graph, progress: Progress, blockers: seq<int>): seq<Reason> {
    if blockers == [] then []
    else Prerequisites(g, progress, blockers[..|blockers| - 1]) + Prerequisite(g, progress, blockers[|blockers| - 1])
  }

  function When(condition: bool, reason: Reason): seq<Reason> { if condition then [reason] else [] }

  function SpecReasons(g: Graph, progress: Progress, cyclic: bool): seq<Reason> {
    Prerequisites(g, progress, g.spec.blockers)
    + When(cyclic, SpecCycle)
    + When(!IsSpec(g.spec) || !g.spec.isOpen || READY_FOR_AGENT !in g.spec.labels, SpecNotAdmitted)
    + When(g.spec.hasAssignee && g.spec.number !in progress.recoverable, SpecClaimed)
  }

  function TicketReasons(g: Graph, progress: Progress, specReasons: seq<Reason>, cyclic: bool, t: Issue): seq<Reason> {
    var placed := specReasons + When(!IsTicket(t), TypeConflict)
      + When(t.parent != Some(g.spec.number), ParentMismatch) + When(cyclic, Cycle);
    if t.number in progress.integrated then placed
    else
      placed + When(!t.isOpen || READY_FOR_AGENT !in t.labels, NotAdmitted)
      + When(t.hasAssignee && t.number !in progress.recoverable, Claimed)
      + Prerequisites(g, progress, t.blockers)
  }

  /** Nothing about the Spec itself is in the way. */
  ghost predicate SpecClear(g: Graph, progress: Progress) {
    && (forall b :: b in g.spec.blockers ==> Met(g, progress, b))
    && !ReachesCycle(g.dependencies, g.spec.number)
    && IsSpec(g.spec) && g.spec.isOpen && READY_FOR_AGENT in g.spec.labels
    && (g.spec.hasAssignee ==> g.spec.number in progress.recoverable)
  }

  ghost predicate WellPlaced(g: Graph, t: Issue) {
    IsTicket(t) && t.parent == Some(g.spec.number) && !ReachesCycle(g.dependencies, t.number)
  }

  predicate Admitted(progress: Progress, t: Issue) {
    t.isOpen && READY_FOR_AGENT in t.labels && (t.hasAssignee ==> t.number in progress.recoverable)
  }

  ghost predicate Ready(g: Graph, progress: Progress, t: Issue) {
    && SpecClear(g, progress) && WellPlaced(g, t) && t.number !in progress.integrated
    && Admitted(progress, t) && forall b :: b in t.blockers ==> Met(g, progress, b)
  }

  /** An integrated ticket that nothing is wrong with. */
  ghost predicate Done(g: Graph, progress: Progress, t: Issue) {
    SpecClear(g, progress) && WellPlaced(g, t) && t.number in progress.integrated
  }

  lemma {:induction false} NoPrerequisiteReasons(g: Graph, progress: Progress, blockers: seq<int>)
    ensures Prerequisites(g, progress, blockers) == [] <==> forall b :: b in blockers ==> Met(g, progress, b)
  {
    if blockers != [] {
      var init, last := blockers[..|blockers| - 1], blockers[|blockers| - 1];
      NoPrerequisiteReasons(g, progress, init);
      assert blockers == init + [last];
      assert Prerequisite(g, progress, last) == [] <==> Met(g, progress, last);
    }
  }

  /** The absence of reasons means exactly that the ticket can start or is done. */
  lemma NoReasons(g: Graph, progress: Progress, specCyclic: bool, cyclic: bool, t: Issue)
    requires specCyclic <==> ReachesCycle(g.dependencies, g.spec.number)
    requires cyclic <==> ReachesCycle(g.dependencies, t.number)
    ensures TicketReasons(g, progress, SpecReasons(g, progress, specCyclic), cyclic, t) == [] <==>
      Ready(g, progress, t) || Done(g, progress, t)
  {
    NoPrerequisiteReasons(g, progress, g.spec.blockers);
    NoPrerequisiteReasons(g, progress, t.blockers);
  }

  ghost function ReadyTickets(g: Graph, progress: Progress, tickets: seq<Issue>): seq<Issue> {
    if tickets == [] then [] else
      var last := tickets[|tickets| - 1];
      ReadyTickets(g, progress, tickets[..|tickets| - 1]) + if Ready(g, progress, last) then [last] else []
  }

  ghost function ReasonsFor(g: Graph, progress: Progress, t: Issue): seq<Reason> {
    TicketReasons(g, progress, SpecReasons(g, progress, ReachesCycle(g.dependencies, g.spec.number)),
                  ReachesCycle(g.dependencies, t.number), t)
  }

  /** Every ticket with something in its way, with all of it. */
  ghost function BlockedTickets(g: Graph, progress: Progress, tickets: seq<Issue>): seq<Blocked> {
    if tickets == [] then [] else
      var last := tickets[|tickets| - 1];
      BlockedTickets(g, progress, tickets[..|tickets| - 1])
      + if ReasonsFor(g, progress, last) == [] then [] else [Blocked(last.number, ReasonsFor(g, progress, last))]
  }

  /** What the frontier holds after `i` tickets. */
  ghost predicate Scanned(g: Graph, progress: Progress, i: nat, ready: seq<Issue>, blocked: seq<Blocked>)
    requires i <= |g.tickets|
  {
    && ready == ReadyTickets(g, progress, g.tickets[..i])
    && blocked == BlockedTickets(g, progress, g.tickets[..i])
  }

  lemma ScanStep(g: Graph, progress: Progress, i: nat, ready: seq<Issue>, blocked: seq<Blocked>,
                 specCyclic: bool, cyclic: bool)
    requires i < |g.tickets| && Scanned(g, progress, i, ready, blocked)
    requires specCyclic <==> ReachesCycle(g.dependencies, g.spec.number)
    requires cyclic <==> ReachesCycle(g.dependencies, g.tickets[i].number)
    ensures
      var t := g.tickets[i];
      var reasons := TicketReasons(g, progress, SpecReasons(g, progress, specCyclic), cyclic, t);
      if reasons != [] then Scanned(g, progress, i + 1, ready, blocked + [Blocked(t.number, reasons)])
      else if t.number !in progress.integrated then Scanned(g, progress, i + 1, ready + [t], blocked)
      else Scanned(g, progress, i + 1, ready, blocked)
  {
    var t := g.tickets[i];
    var reasons := TicketReasons(g, progress, SpecReasons(g, progress, specCyclic), cyclic, t);
    NoReasons(g, progress, specCyclic, cyclic, t);
    assert g.tickets[..i + 1][..i] == g.tickets[..i];
  }

  lemma ScanComplete(g: Graph, progress: Progress, blocked: seq<Blocked>)
    requires blocked == BlockedTickets(g, progress, g.tickets)
    ensures (|blocked| == 0 && forall t :: t in g.tickets ==> t.number in progress.integrated) <==>
      forall t :: t in g.tickets ==> Done(g, progress, t)
  {
    NoneBlocked(g, progress, g.tickets);
  }

  /** A ticket is ready exactly when the declarative conditions hold, whatever order the
      cycle search has visited the graph in. */
  method SpecFrontier(g: Graph, progress: Progress)
    returns (ready: seq<Issue>, blocked: seq<Blocked>, complete: bool)
    ensures ready == ReadyTickets(g, progress, g.tickets)
    ensures blocked == BlockedTickets(g, progress, g.tickets)
    ensures complete <==> g.tickets != [] && forall t :: t in g.tickets ==> Done(g, progress, t)
  {
    var search := new CycleSearch(g.dependencies);
    var specCyclic := search.Cyclic(g.spec.number, {}, []);
    var specReasons := SpecReasons(g, progress, specCyclic);
    ready, blocked := [], [];
    for i := 0 to |g.tickets|
      invariant search.Valid() && Scanned(g, progress, i, ready, blocked)
    {
      var ticket := g.tickets[i];
      var cyclic := search.Cyclic(ticket.number, {}, []);
      var reasons := TicketReasons(g, progress, specReasons, cyclic, ticket);
      ScanStep(g, progress, i, ready, blocked, specCyclic, cyclic);
      if |reasons| > 0 {
        blocked := blocked + [Blocked(ticket.number, reasons)];
      } else if ticket.number !in progress.integrated {
        ready := ready + [ticket];
      }
    }
    assert g.tickets[..|g.tickets|] == g.tickets;
    ScanComplete(g, progress, blocked);
    complete := |g.tickets| > 0 && |blocked| == 0 && forall t | t in g.tickets :: t.number in progress.integrated;
  }

  lemma {:induction false} NoneBlocked(g: Graph, progress: Progress, tickets: seq<Issue>)
    ensures BlockedTickets(g, progress, tickets) == [] <==>
      forall t :: t in tickets ==> Ready(g, progress, t) || Done(g, progress, t)
  {
    if tickets != [] {
      var last := tickets[|tickets| - 1];
      NoneBlocked(g, progress, tickets[..|tickets| - 1]);
      NoReasons(g, progress, ReachesCycle(g.dependencies, g.spec.number), ReachesCycle(g.dependencies, last.number), last);
      assert tickets == tickets[..|tickets| - 1] + [last];
    }
  }

  lemma {:induction false} InReadyTickets(g: Graph, progress: Progress, tickets: seq<Issue>, t: Issue)
    ensures t in ReadyTickets(g, progress, tickets) <==> t in tickets && Ready(g, progress, t)
  {
    if tickets != [] {
      InReadyTickets(g, progress, tickets[..|tickets| - 1], t);
      assert tickets == tickets[..|tickets| - 1] + [tickets[|tickets| - 1]];
    }
  }

  // ---- The frontier never stalls ----

  /** What loading establishes about the tickets of a graph. */
  ghost predicate Loaded(g: Graph) {
    forall t :: t in g.tickets ==> t.number in g.dependencies && g.dependencies[t.number] == t
  }

  ghost predicate OthersDelivered(g: Graph, progress: Progress) {
    forall t, b :: t in g.tickets && b in t.blockers && FindTicket(g.tickets, b).None? ==> b in progress.delivered
  }

  function TicketNumbers(g: Graph): set<int> { set t | t in g.tickets :: t.number }

  /** Follow unmet blockers from a ticket: the walk stays inside the graph and cannot
      repeat, so it ends at a ticket whose blockers are all met. */
  lemma {:induction false} FindReady(g: Graph, progress: Progress, walk: seq<int>, t: Issue) returns (r: Issue)
    requires Loaded(g) && SpecClear(g, progress) && OthersDelivered(g, progress)
    requires forall u :: u in g.tickets ==> WellPlaced(g, u) && (u.number in progress.integrated || Admitted(progress, u))
    requires t in g.tickets && t.number !in progress.integrated
    requires Walk(g.dependencies, walk + [t.number]) && (forall n :: n in walk ==> n in TicketNumbers(g)) && t.number !in walk
    ensures r in g.tickets && Ready(g, progress, r)
    decreases TicketNumbers(g) - set n | n in walk
  {
    if b :| b in t.blockers && !Met(g, progress, b) {
      var local := FindTicket(g.tickets, b).value;
      var longer := walk + [t.number];
      assert Walk(g.dependencies, longer + [b]) by {
        forall i | 0 <= i < |longer| ensures (longer + [b])[i + 1] in Blockers(g.dependencies, (longer + [b])[i]) {
          if i < |longer| - 1 { assert longer[i + 1] in Blockers(g.dependencies, longer[i]); }
        }
      }
      if b in longer {
        StackCloses(g.dependencies, longer, b);
        r := local;
      } else {
        assert t.number in TicketNumbers(g) - (set n | n in walk) && t.number in longer;
        r := FindReady(g, progress, longer, local);
      }
    } else {
      r := t;
    }
  }

  /** A Spec without cycles whose own conditions are met always has work to do until every
      ticket is integrated. */
  lemma FrontierNeverStalls(g: Graph, progress: Progress)
    requires Loaded(g) && SpecClear(g, progress) && OthersDelivered(g, progress)
    requires forall u :: u in g.tickets ==> WellPlaced(g, u) && (u.number in progress.integrated || Admitted(progress, u))
    ensures ReadyTickets(g, progress, g.tickets) == [] <==> forall t :: t in g.tickets ==> t.number in progress.integrated
  {
    if t :| t in g.tickets && t.number !in progress.integrated {
      var r := FindReady(g, progress, [], t);
      InReadyTickets(g, progress, g.tickets, r);
    } else if ReadyTickets(g, progress, g.tickets) != [] {
      InReadyTickets(g, progress, g.tickets, ReadyTickets(g, progress, g.tickets)[0]);
    }
  }

  // ---- Runs that start only ready tickets ----

  datatype Event = Start(number: int) | Integrate(number: int)

  function IntegratedBy(events: seq<Event>): set<int> {
    set e | e in events && e.Integrate? :: e.number
  }

  function After(progress: Progress, events: seq<Event>): Progress {
    progress.(integrated := progress.integrated + IntegratedBy(events))
  }

  /** Tickets start only from the frontier and are integrated only after they started. */
  ghost predicate Disciplined(g: Graph, progress: Progress, events: seq<Event>) {
    forall i :: 0 <= i < |events| ==>
      match events[i]
      case Start(n) => exists t :: t in g.tickets && t.number == n && Ready(g, After(progress, events[..i]), t)
      case Integrate(n) => Start(n) in events[..i]
  }

  lemma WalkTail(issues: map<int, Issue>, p: seq<int>)
    requires |p| > 1 && Walk(issues, p)
    ensures p[1] in Blockers(issues, p[0]) && Walk(issues, p[1..])
  {
    assert p[0 + 1] in Blockers(issues, p[0]);
    forall i | 0 <= i < |p[1..]| - 1 ensures p[1..][i + 1] in Blockers(issues, p[1..][i]) {
      assert p[(i + 1) + 1] in Blockers(issues, p[i + 1]);
    }
  }

  /** The tickets restored as integrated include the local blockers of every one of them. */
  ghost predicate RestoredConsistently(g: Graph, progress: Progress) {
    forall n, b :: n in progress.integrated && b in Blockers(g.dependencies, n) && b in TicketNumbers(g) ==>
      b in progress.integrated
  }

  lemma {:induction false} RestoredWalk(g: Graph, progress: Progress, walk: seq<int>)
    requires RestoredConsistently(g, progress) && Walk(g.dependencies, walk) && |walk| >= 1
    requires walk[0] in progress.integrated && forall n :: n in walk ==> n in TicketNumbers(g)
    ensures walk[|walk| - 1] in progress.integrated
  {
    if |walk| > 1 {
      WalkTail(g.dependencies, walk);
      var next := walk[1];
      assert next in walk && next in TicketNumbers(g) && next in Blockers(g.dependencies, walk[0]);
      assert forall n :: n in walk[1..] ==> n in walk;
      RestoredWalk(g, progress, walk[1..]);
    }
  }

  /** A ticket starts only after every ticket it is blocked by, directly or through other
      tickets, has been integrated. */
  lemma {:induction false} BlockersAreIntegratedFirst(g: Graph, progress: Progress, events: seq<Event>, i: nat, walk: seq<int>)
    requires Loaded(g) && RestoredConsistently(g, progress) && Disciplined(g, progress, events)
    requires i < |events| && |walk| >= 2 && events[i] == Start(walk[0])
    requires Walk(g.dependencies, walk) && forall n :: n in walk ==> n in TicketNumbers(g)
    ensures walk[|walk| - 1] in After(progress, events[..i]).integrated
    decreases i
  {
    var now := After(progress, events[..i]);
    var t :| t in g.tickets && t.number == walk[0] && Ready(g, now, t);
    var next, rest := walk[1], walk[1..];
    WalkTail(g.dependencies, walk);
    assert next in walk && forall n :: n in rest ==> n in walk;
    FindKnown(g.tickets, next);
    assert Met(g, now, next);
    if next in progress.integrated {
      RestoredWalk(g, progress, rest);
    } else if |walk| > 2 {
      assert Integrate(next) in events[..i];
      var j :| 0 <= j < i && events[j] == Integrate(next);
      assert Start(next) in events[..j];
      var k :| 0 <= k < j && events[k] == Start(next);
      BlockersAreIntegratedFirst(g, progress, events, k, rest);
      assert forall e :: e in events[..k] ==> e in events[..i];
    }
  }

  lemma {:induction false} FindKnown(tickets: seq<Issue>, n: int)
    ensures FindTicket(tickets, n).None? <==> forall t :: t in tickets ==> t.number != n
  {
    if tickets != [] {
      FindKnown(tickets[1..], n);
      assert tickets == [tickets[0]] + tickets[1..];
    }
  }

  // ---- Loading loses no cycle ----

  lemma {:induction false} LoadedWalk(world: map<int, Issue>, dependencies: map<int, Issue>, p: seq<int>)
    requires forall n :: n in dependencies ==> n in world && dependencies[n] == world[n]
    requires ClosedExcept(dependencies, {}) && p != [] && p[0] in dependencies
    ensures Walk(world, p) <==> Walk(dependencies, p)
    ensures Walk(world, p) ==> p[|p| - 1] in dependencies
    decreases |p|
  {
    if |p| > 1 {
      var init := p[..|p| - 1];
      LoadedWalk(world, dependencies, init);
      var x, last := init[|init| - 1], p[|p| - 1];
      WalkLast(world, p);
      WalkLast(dependencies, p);
      if Walk(world, p) {
        assert Contains(dependencies, dependencies[x].blockers) && last in dependencies[x].blockers;
        assert last in dependencies;
      }
    }
  }

  lemma WalkLast(issues: map<int, Issue>, p: seq<int>)
    requires |p| > 1
    ensures Walk(issues, p) <==> Walk(issues, p[..|p| - 1]) && p[|p| - 1] in Blockers(issues, p[|p| - 2])
  {
    if Walk(issues, p) { assert p[|p| - 2 + 1] in Blockers(issues, p[|p| - 2]); }
    if Walk(issues, p[..|p| - 1]) && p[|p| - 1] in Blockers(issues, p[|p| - 2]) {
      forall i | 0 <= i < |p| - 1 ensures p[i + 1] in Blockers(issues, p[i]) {
        if i < |p| - 2 { assert p[..|p| - 1][i + 1] in Blockers(issues, p[..|p| - 1][i]); }
      }
    }
  }

  /** Searching the loaded dependencies finds every cycle of the tracker. */
  lemma LoadedCycles(world: map<int, Issue>, dependencies: map<int, Issue>, n: int)
    requires forall m :: m in dependencies ==> m in world && dependencies[m] == world[m]
    requires ClosedExcept(dependencies, {}) && n in dependencies
    ensures ReachesCycle(dependencies, n) <==> ReachesCycle(world, n)
  {
    forall p ensures Lasso(dependencies, n, p) <==> Lasso(world, n, p) {
      if |p| >= 2 && p[0] == n { LoadedWalk(world, dependencies, p); }
    }
  }

  /** The tickets of a loaded graph are among its dependencies. */
  lemma LoadedTickets(tracker: map<int, Issue>, children: seq<int>, spec: Issue, g: Graph)
    requires forall n :: n in tracker ==> tracker[n].number == n
    requires |g.tickets| == |children| && forall i :: 0 <= i < |children| ==> children[i] in tracker && g.tickets[i] == tracker[children[i]]
    requires forall n :: n in g.dependencies <==> Reachable(tracker, children, spec, n)
    requires forall n :: n in g.dependencies ==> n in World(tracker, children, spec) && g.dependencies[n] == World(tracker, children, spec)[n]
    ensures Loaded(g)
  {
    forall t | t in g.tickets ensures t.number in g.dependencies && g.dependencies[t.number] == t {
      var i :| 0 <= i < |children| && g.tickets[i] == t;
      RootIsReachable(tracker, children, spec, children[i]);
    }
  }
}
