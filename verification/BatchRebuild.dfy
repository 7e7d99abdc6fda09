// One run of the batch rebuilder: claim a chunk, build it, publish it in groups, and
// release whatever was not published (packages/document-update/src/batch-rebuild.ts and
// claimRebuilds in index.ts).
module BatchRebuild {
  import opened Json
  import opened RebuildRows
  import RebuildProtocol
  import opened BatchPublication

  // ---- One request per target ----

  function IndexOf(requests: seq<Request>, target: nat): (at: Option<nat>)
    ensures at.Some? ==> at.value < |requests| && requests[at.value].target == target
  {
    if requests == [] then None
    else if requests[|requests| - 1].target == target then Some(|requests| - 1)
    else IndexOf(requests[..|requests| - 1], target)
  }

  ghost predicate OnePerTarget(requests: seq<Request>) {
    forall i, j :: 0 <= i < j < |requests| ==> requests[i].target != requests[j].target
  }

  lemma {:induction false} IndexIsFound(requests: seq<Request>, i: nat)
    requires i < |requests| && OnePerTarget(requests)
    ensures IndexOf(requests, requests[i].target) == Some(i)
  {
    if i < |requests| - 1 { IndexIsFound(requests[..|requests| - 1], i); }
  }

  /** Map semantics: a target keeps its place, a newer version replaces an older one. */
  function Insert(newest: seq<Request>, value: Request): seq<Request> {
    match IndexOf(newest, value.target)
    case None => newest + [value]
    case Some(i) => if newest[i].version < value.version then newest[i := value] else newest
  }

  function Newest(raw: seq<Request>): seq<Request> {
    if raw == [] then [] else Insert(Newest(raw[..|raw| - 1]), raw[|raw| - 1])
  }

  /** The version a list of requests asks for a target, 0 when it asks for none. */
  function VersionFor(requests: seq<Request>, target: nat): nat {
    match IndexOf(requests, target) case None => 0 case Some(i) => requests[i].version
  }

  function Greatest(raw: seq<Request>, target: nat): nat {
    if raw == [] then 0 else
      var before := Greatest(raw[..|raw| - 1], target);
      var last := raw[|raw| - 1];
      if last.target == target && last.version > before then last.version else before
  }

  lemma {:induction false} AbsentTarget(requests: seq<Request>, target: nat)
    requires IndexOf(requests, target) == None
    ensures forall i :: 0 <= i < |requests| ==> requests[i].target != target
  {
    if requests != [] { AbsentTarget(requests[..|requests| - 1], target); }
  }

  lemma InsertKeeps(newest: seq<Request>, value: Request, target: nat)
    requires OnePerTarget(newest) && value.version >= 1
    ensures OnePerTarget(Insert(newest, value))
    ensures VersionFor(Insert(newest, value), target) ==
      if target == value.target && value.version > VersionFor(newest, target) then value.version
      else VersionFor(newest, target)
  {
    var next := Insert(newest, value);
    match IndexOf(newest, value.target) {
      case None =>
        AbsentTarget(newest, value.target);
        assert next[..|next| - 1] == newest;
      case Some(k) =>
        if newest[k].version < value.version {
          IndexIsFound(next, k);
          match IndexOf(newest, target) {
            case None =>
              AbsentTarget(newest, target);
              if IndexOf(next, target).Some? { assert next[IndexOf(next, target).value].target == target; }
            case Some(i) => IndexIsFound(next, i);
          }
        }
    }
  }

  /** The requests of a message, one per target, each with the greatest version asked. */
  lemma {:induction false} NewestIsGreatest(raw: seq<Request>, target: nat)
    requires forall i :: 0 <= i < |raw| ==> raw[i].version >= 1
    ensures OnePerTarget(Newest(raw))
    ensures VersionFor(Newest(raw), target) == Greatest(raw, target)
  {
    if raw != [] {
      NewestIsGreatest(raw[..|raw| - 1], target);
      InsertKeeps(Newest(raw[..|raw| - 1]), raw[|raw| - 1], target);
    }
  }

  method NewestRequests(raw: seq<Request>) returns (requests: seq<Request>)
    ensures requests == Newest(raw)
  {
    requests := [];
    for i := 0 to |raw|
      invariant requests == Newest(raw[..i])
    {
      assert raw[..i + 1][..i] == raw[..i];
      match IndexOf(requests, raw[i].target) {
        case None => requests := requests + [raw[i]];
        case Some(k) => if requests[k].version < raw[i].version { requests := requests[k := raw[i]]; }
      }
    }
    assert raw[..|raw|] == raw;
  }

  // ---- Publication groups ----

  datatype Prepared = Prepared(claim: Claim, bytes: nat)

  function Bytes(group: seq<Prepared>): nat {
    if group == [] then 0 else Bytes(group[..|group| - 1]) + group[|group| - 1].bytes
  }

  function Flatten(groups: seq<seq<Prepared>>): seq<Prepared> {
    if groups == [] then [] else Flatten(groups[..|groups| - 1]) + groups[|groups| - 1]
  }

  predicate Full(group: seq<Prepared>, next: Prepared, byteLimit: nat, targetLimit: nat) {
    Bytes(group) + next.bytes > byteLimit || |group| >= targetLimit
  }

  /** A group is never empty, never exceeds the target limit, and exceeds the byte limit
      only as a single large document. */
  predicate GroupFits(group: seq<Prepared>, byteLimit: nat, targetLimit: nat) {
    1 <= |group| <= targetLimit && (Bytes(group) <= byteLimit || |group| == 1)
  }

  /** Groups are as large as they can be: each was closed because the next candidate no
      longer fitted. */
  ghost predicate Greedy(groups: seq<seq<Prepared>>, byteLimit: nat, targetLimit: nat) {
    forall i, j :: 0 <= i && i + 1 == j < |groups| ==>
      groups[j] != [] && Full(groups[i], groups[j][0], byteLimit, targetLimit)
  }

  ghost predicate Grouping(candidates: seq<Prepared>, groups: seq<seq<Prepared>>, byteLimit: nat, targetLimit: nat) {
    && Flatten(groups) == candidates
    && (forall i :: 0 <= i < |groups| ==> GroupFits(groups[i], byteLimit, targetLimit))
    && Greedy(groups, byteLimit, targetLimit)
  }

  lemma FlattenAppend(groups: seq<seq<Prepared>>, group: seq<Prepared>)
    ensures Flatten(groups + [group]) == Flatten(groups) + group
  {
    assert (groups + [group])[..|groups|] == groups;
  }

  lemma BytesAppend(group: seq<Prepared>, p: Prepared)
    ensures Bytes(group + [p]) == Bytes(group) + p.bytes
  {
    assert (group + [p])[..|group|] == group;
  }

  /** The last group is still open; `groups` are the closed ones. */
  ghost predicate Opened(groups: seq<seq<Prepared>>, group: seq<Prepared>, byteLimit: nat, targetLimit: nat) {
    && (forall i :: 0 <= i < |groups| ==> GroupFits(groups[i], byteLimit, targetLimit))
    && Greedy(groups, byteLimit, targetLimit)
    && (group == [] ==> groups == [])
    && (group != [] ==> GroupFits(group, byteLimit, targetLimit)
                        && (groups != [] ==> Full(groups[|groups| - 1], group[0], byteLimit, targetLimit)))
  }

  /** Where the next candidate does not fit, its group is closed and the next one opened. */
  lemma ClosedStep(groups: seq<seq<Prepared>>, group: seq<Prepared>, next: Prepared, byteLimit: nat, targetLimit: nat)
    requires Opened(groups, group, byteLimit, targetLimit) && group != [] && targetLimit >= 1
    requires Full(group, next, byteLimit, targetLimit)
    ensures Opened(groups + [group], [next], byteLimit, targetLimit)
  {}

  lemma OpenStep(groups: seq<seq<Prepared>>, group: seq<Prepared>, next: Prepared, byteLimit: nat, targetLimit: nat)
    requires Opened(groups, group, byteLimit, targetLimit) && targetLimit >= 1
    requires group == [] || !Full(group, next, byteLimit, targetLimit)
    ensures Opened(groups, group + [next], byteLimit, targetLimit)
  {
    BytesAppend(group, next);
  }

  lemma LastGroup(groups: seq<seq<Prepared>>, group: seq<Prepared>, byteLimit: nat, targetLimit: nat)
    requires Opened(groups, group, byteLimit, targetLimit) && group != []
    ensures Grouping(Flatten(groups) + group, groups + [group], byteLimit, targetLimit)
  {
    FlattenAppend(groups, group);
  }

  /** What has been grouped after `i` candidates. */
  ghost predicate Grouped(candidates: seq<Prepared>, i: nat, groups: seq<seq<Prepared>>, group: seq<Prepared>,
                          byteLimit: nat, targetLimit: nat)
    requires i <= |candidates|
  {
    Opened(groups, group, byteLimit, targetLimit) && Flatten(groups) + group == candidates[..i] && (i > 0 ==> group != [])
  }

  lemma NextCandidate(candidates: seq<Prepared>, i: nat, done: seq<Prepared>)
    requires i < |candidates| && done == candidates[..i]
    ensures done + [candidates[i]] == candidates[..i + 1]
  {}

  lemma GroupedClosed(candidates: seq<Prepared>, i: nat, groups: seq<seq<Prepared>>, group: seq<Prepared>,
                      byteLimit: nat, targetLimit: nat)
    requires i < |candidates| && targetLimit >= 1 && Grouped(candidates, i, groups, group, byteLimit, targetLimit)
    requires group != [] && Full(group, candidates[i], byteLimit, targetLimit)
    ensures Grouped(candidates, i + 1, groups + [group], [candidates[i]], byteLimit, targetLimit)
  {
    ClosedStep(groups, group, candidates[i], byteLimit, targetLimit);
    FlattenAppend(groups, group);
    NextCandidate(candidates, i, Flatten(groups) + group);
  }

  lemma GroupedOpen(candidates: seq<Prepared>, i: nat, groups: seq<seq<Prepared>>, group: seq<Prepared>,
                    byteLimit: nat, targetLimit: nat)
    requires i < |candidates| && targetLimit >= 1 && Grouped(candidates, i, groups, group, byteLimit, targetLimit)
    requires group == [] || !Full(group, candidates[i], byteLimit, targetLimit)
    ensures Grouped(candidates, i + 1, groups, group + [candidates[i]], byteLimit, targetLimit)
  {
    OpenStep(groups, group, candidates[i], byteLimit, targetLimit);
    NextCandidate(candidates, i, Flatten(groups) + group);
    assert Flatten(groups) + (group + [candidates[i]]) == (Flatten(groups) + group) + [candidates[i]];
  }

  lemma GroupedAll(candidates: seq<Prepared>, groups: seq<seq<Prepared>>, group: seq<Prepared>,
                   byteLimit: nat, targetLimit: nat)
    requires Grouped(candidates, |candidates|, groups, group, byteLimit, targetLimit)
    ensures Grouping(candidates, if group != [] then groups + [group] else groups, byteLimit, targetLimit)
  {
    assert candidates[..|candidates|] == candidates;
    if group != [] { LastGroup(groups, group, byteLimit, targetLimit); }
  }

  method PublicationBatches(candidates: seq<Prepared>, byteLimit: nat, targetLimit: nat)
    returns (groups: seq<seq<Prepared>>)
    requires targetLimit >= 1
    ensures Grouping(candidates, groups, byteLimit, targetLimit)
  {
    groups := [];
    var group: seq<Prepared> := [];
    var bytes := 0;
    for i := 0 to |candidates|
      invariant Grouped(candidates, i, groups, group, byteLimit, targetLimit)
      invariant bytes == Bytes(group)
    {
      var candidate := candidates[i];
      if |group| > 0 && (bytes + candidate.bytes > byteLimit || |group| >= targetLimit) {
        GroupedClosed(candidates, i, groups, group, byteLimit, targetLimit);
        BytesAppend([], candidate);
        assert [] + [candidate] == [candidate];
        groups := groups + [group];
        group := [candidate];
        bytes := candidate.bytes;
      } else {
        GroupedOpen(candidates, i, groups, group, byteLimit, targetLimit);
        BytesAppend(group, candidate);
        group := group + [candidate];
        bytes := bytes + candidate.bytes;
      }
    }
    GroupedAll(candidates, groups, group, byteLimit, targetLimit);
    if |group| > 0 { groups := groups + [group]; }
  }

  // ---- The surroundings of one run ----

  /** What the batch builder returns for one claim; `document` is the size of the built
      document, none when the build failed. */
  datatype BuildResult = BuildResult(target: nat, version: nat, document: Option<nat>)

  datatype Build = BuildThrows | BuildReturns(results: seq<BuildResult>)

  /** Everything outside the run, by index: chunks for claims, builds and callbacks, one
      publication oracle per group, statements for interference and cleanup, polls for
      the abort signal. A claim statement may commit although its acknowledgement is lost.
      `broken` are targets that may fail to build although nothing else goes wrong. */
  datatype Environment = Environment(
    tokens: (nat, Store, nat) -> seq<nat>,
    interfere: (nat, Store) -> Store,
    claimAcknowledged: nat -> bool,
    claimCommitted: nat -> bool,
    aborted: nat -> bool,
    build: (nat, seq<Claim>) -> Build,
    publication: nat -> Oracle,
    callbackFails: nat -> bool,
    cleanup: nat -> Cleanup,
    broken: set<nat>)

  ghost predicate FreshList(s: Store, tokens: seq<nat>, count: nat) {
    && |tokens| == count
    && (forall i :: 0 <= i < count ==> tokens[i] !in s.minted)
    && (forall i, j :: 0 <= i < j < count ==> tokens[i] != tokens[j])
  }

  /** Random tokens are new, and other sessions follow the protocol. */
  ghost predicate Plausible(env: Environment) {
    && (forall k, s, count :: FreshList(s, env.tokens(k, s, count), count))
    && (forall n, s :: StoreInv(s) ==> Follows(s, env.interfere(n, s)))
    && (forall g :: Respectful(env.publication(g)))
  }

  /** The statements a run has executed so far: cleanups of its own, and for each of its
      publications the cleanups within it. */
  datatype Executed = Executed(cleanups: nat, batches: seq<nat>)

  ghost predicate Earlier(a: Executed, b: Executed) { a.cleanups <= b.cleanups && a.batches <= b.batches }

  /** Some executed cleanup statement failed or found the target locked. */
  ghost predicate Excused(env: Environment, ran: Executed, target: nat) {
    || (exists n: nat :: n < ran.cleanups && Skips(env.cleanup(n), target))
    || (exists g: nat, n: nat :: g < |ran.batches| && n < ran.batches[g] && Skips(env.publication(g).cleanup(n), target))
  }

  ghost predicate Released(env: Environment, ran: Executed, s: Store, c: Claim) {
    c.token in s.minted && (Owns(s, c) ==> Excused(env, ran, c.target))
  }

  ghost predicate AllReleased(env: Environment, ran: Executed, s: Store, claims: seq<Claim>) {
    forall c :: c in claims ==> Released(env, ran, s, c)
  }

  ghost predicate AllMinted(s: Store, claims: seq<Claim>) {
    forall c :: c in claims ==> c.token in s.minted
  }

  lemma ReleasePersists(env: Environment, a: Executed, b: Executed, s: Store, t: Store, claims: seq<Claim>)
    requires Earlier(a, b) && Follows(s, t) && AllReleased(env, a, s, claims)
    ensures AllReleased(env, b, t, claims)
  {
    forall c | c in claims ensures Released(env, b, t, c) { ReleasedPersists(env, a, b, s, t, c); }
  }

  lemma ReleasedPersists(env: Environment, a: Executed, b: Executed, s: Store, t: Store, c: Claim)
    requires Earlier(a, b) && Follows(s, t) && Released(env, a, s, c)
    ensures Released(env, b, t, c)
  {
    if Owns(t, c) && !(exists n: nat :: n < a.cleanups && Skips(env.cleanup(n), c.target)) {
      var g: nat, n: nat :| g < |a.batches| && n < a.batches[g] && Skips(env.publication(g).cleanup(n), c.target);
      assert b.batches[g] == a.batches[g];
    }
  }

  lemma FollowsItself(s: Store)
    requires StoreInv(s)
    ensures Follows(s, s)
  {}

  ghost predicate AllVersioned(requests: seq<Request>) {
    forall i :: 0 <= i < |requests| ==> requests[i].version >= 1
  }

  ghost predicate Subset(claims: seq<Claim>, all: seq<Claim>) {
    forall c :: c in claims ==> c in all
  }

  ghost predicate AllReleasedBut(env: Environment, ran: Executed, s: Store, all: seq<Claim>, claims: seq<Claim>) {
    forall c :: c in all && c !in claims ==> Released(env, ran, s, c)
  }

  /** What one claim statement leaves behind: the newest request per target, each with a
      token of its own, has taken the row exactly when it was claimable. */
  ghost predicate ClaimSent(env: Environment, k: nat, chunk: seq<Request>, before: Store, after: Store,
                            mine: seq<Claim>, mineAfter: seq<Claim>)
  {
    && mine <= mineAfter
    && var sent := mineAfter[|mine|..];
       if env.claimAcknowledged(k) || env.claimCommitted(k)
       then ClaimsFor(chunk, sent) && forall c :: c in sent ==> (Owns(after, c) <==> Claimable(before, c))
       else sent == [] && after == before
  }

  function FindResult(results: seq<BuildResult>, target: nat): Option<BuildResult> {
    if results == [] then None
    else if results[|results| - 1].target == target then Some(results[|results| - 1])
    else FindResult(results[..|results| - 1], target)
  }

  /** Results name distinct claims with their versions, and as many as were claimed. */
  predicate ResultsMatch(claims: seq<Claim>, results: seq<BuildResult>) {
    && |results| == |claims|
    && (forall i, j :: 0 <= i < j < |results| ==> results[i].target != results[j].target)
    && (forall i :: 0 <= i < |results| ==>
          exists k :: 0 <= k < |claims| && claims[k].target == results[i].target && claims[k].version == results[i].version)
  }

  function ClaimsOf(group: seq<Prepared>): (claims: seq<Claim>)
    ensures |claims| == |group|
    ensures forall i :: 0 <= i < |group| ==> claims[i] == group[i].claim
  {
    seq(|group|, i requires 0 <= i < |group| => group[i].claim)
  }

  function GroupClaims(groups: seq<seq<Prepared>>): seq<Claim> { ClaimsOf(Flatten(groups)) }

  function ZipTokens(requests: seq<Request>, tokens: seq<nat>): (claims: seq<Claim>)
    requires |tokens| == |requests|
    ensures |claims| == |requests|
    ensures forall i :: 0 <= i < |requests| ==> claims[i] == Claim(requests[i].target, requests[i].version, tokens[i])
  {
    seq(|requests|, i requires 0 <= i < |requests| => Claim(requests[i].target, requests[i].version, tokens[i]))
  }

  /** One claim for the newest request of each target. */
  ghost predicate ClaimsFor(chunk: seq<Request>, claims: seq<Claim>) {
    |claims| == |Newest(chunk)| && forall i :: 0 <= i < |claims| ==>
      claims[i].target == Newest(chunk)[i].target && claims[i].version == Newest(chunk)[i].version
  }

  /** The claims that find their row claimable. */
  function Winners(s: Store, claims: seq<Claim>): seq<Claim> { Keep(claims, c => Claimable(s, c)) }

  lemma {:induction false} ClaimElsewhere(s: Store, claims: seq<Claim>)
    ensures SameExcept(s, ClaimAll(s, claims), Targets(claims))
  {
    if claims != [] {
      ClaimElsewhere(s, claims[..|claims| - 1]);
      LastTarget(claims);
    }
  }

  /** A request wins its row exactly when it was claimable. */
  lemma {:induction false} ClaimAllOwns(s: Store, claims: seq<Claim>, c: Claim)
    requires StoreInv(s) && FreshTokens(s, claims) && Distinct(claims) && c in claims
    ensures Owns(ClaimAll(s, claims), c) <==> Claimable(s, c)
  {
    var init, last := claims[..|claims| - 1], claims[|claims| - 1];
    assert claims == init + [last];
    if c in init {
      ClaimAllOwns(s, init, c);
    } else {
      ClaimElsewhere(s, init);
      assert last.target !in Targets(init);
    }
  }

  lemma {:induction false} NewestShrinks(raw: seq<Request>)
    ensures |Newest(raw)| <= |raw|
  {
    if raw != [] { NewestShrinks(raw[..|raw| - 1]); }
  }

  lemma {:induction false} KeepShrinks(group: seq<Claim>, wanted: Claim -> bool)
    ensures |Keep(group, wanted)| <= |group|
  {
    if group != [] { KeepShrinks(group[..|group| - 1], wanted); }
  }

  lemma {:induction false} FlattenSplits(groups: seq<seq<Prepared>>, g: nat)
    requires g <= |groups|
    ensures Flatten(groups) == Flatten(groups[..g]) + Flatten(groups[g..])
    decreases |groups|
  {
    if g == |groups| {
      assert groups[..g] == groups;
    } else {
      var init := groups[..|groups| - 1];
      FlattenSplits(init, g);
      assert init[..g] == groups[..g];
      assert groups[g..][..|groups[g..]| - 1] == init[g..];
    }
  }

  // ---- A run that nothing disturbs ----

  /** Targets that fail by themselves, when built or when published. */
  function Unhealthy(env: Environment): set<nat> { env.publication(0).poison + env.broken }

  /** Every claim has its result, and every target that is not broken has been built. */
  ghost predicate AllBuilt(claims: seq<Claim>, results: seq<BuildResult>, broken: set<nat>) {
    && ResultsMatch(claims, results)
    && forall i :: 0 <= i < |claims| ==>
         && FindResult(results, claims[i].target).Some?
         && (claims[i].target !in broken ==> FindResult(results, claims[i].target).value.document.Some?)
  }

  /** No interference, no abort, no lost acknowledgement, and no failure but the unhealthy
      targets' own. */
  ghost predicate Calm(env: Environment) {
    && (forall n: nat, s: Store :: env.interfere(n, s) == s)
    && (forall n: nat :: !env.aborted(n))
    && (forall k: nat :: env.claimAcknowledged(k) && !env.callbackFails(k))
    && (forall k: nat, claims: seq<Claim> :: Distinct(claims) ==>
          env.build(k, claims).BuildReturns? && AllBuilt(claims, env.build(k, claims).results, env.broken))
    && (forall g: nat :: env.publication(g).poison == env.publication(0).poison)
    && (forall g: nat, own: set<nat> :: Undisturbed(env.publication(g), own, 0, false))
  }

  /** The claims' rows have been worked off: what was owned and healthy is published. */
  ghost predicate Worked(env: Environment, s: Store, t: Store, claims: seq<Claim>, published: seq<Claim>) {
    && SameExcept(s, t, Targets(claims))
    && forall c :: c in claims && Owns(s, c) && c.target !in Unhealthy(env) ==> c in published
  }

  lemma WorkedNext(env: Environment, s: Store, t: Store, u: Store, a: seq<Claim>, b: seq<Claim>, p: seq<Claim>, q: seq<Claim>)
    requires Worked(env, s, t, a, p) && Worked(env, t, u, b, q) && p <= q && Distinct(a + b)
    ensures Worked(env, s, u, a + b, q)
  {
    assert Targets(a + b) == Targets(a) + Targets(b);
    forall c | c in a + b && Owns(s, c) && c.target !in Unhealthy(env) ensures c in q {
      if c !in a {
        OutsideTargets(a, b, c);
        assert Owns(t, c);
      }
    }
  }

  /** After the builds: only broken targets' rows were released, and every other claim is a
      candidate. */
  ghost predicate Settled(env: Environment, s: Store, t: Store, claims: seq<Claim>, candidates: seq<Claim>) {
    && (forall k :: k !in Targets(claims) || k !in env.broken ==> SameAt(s, t, k))
    && Distinct(candidates) && Subset(candidates, claims)
    && forall c :: c in claims && c.target !in env.broken ==> c in candidates
  }

  lemma SettledFailed(env: Environment, s: Store, t: Store, u: Store, claims: seq<Claim>, c: Claim, candidates: seq<Claim>)
    requires Settled(env, s, t, claims, candidates) && c.target in env.broken && SameExcept(t, u, Targets([c]))
    ensures Settled(env, s, u, claims + [c], candidates)
  {
    LastTarget(claims + [c]);
    assert (claims + [c])[..|claims|] == claims;
    assert Targets([c]) == {c.target};
    forall k | k !in Targets(claims + [c]) || k !in env.broken ensures SameAt(s, u, k) {
      assert SameAt(s, t, k) && SameAt(t, u, k);
    }
  }

  lemma SettledBuilt(env: Environment, s: Store, t: Store, claims: seq<Claim>, c: Claim, candidates: seq<Claim>)
    requires Settled(env, s, t, claims, candidates) && Distinct(claims + [c])
    ensures Settled(env, s, t, claims + [c], candidates + [c])
  {
    LastTarget(claims + [c]);
    assert (claims + [c])[..|claims|] == claims;
    OutsideTargets(claims, [c], c);
    forall i | 0 <= i < |candidates| ensures candidates[i].target != c.target {
      assert candidates[i] in claims && candidates[i].target in Targets(claims);
    }
  }

  lemma WorkedSettled(env: Environment, s: Store, t: Store, u: Store,
                      claims: seq<Claim>, candidates: seq<Claim>, published: seq<Claim>)
    requires Settled(env, s, t, claims, candidates) && Worked(env, t, u, candidates, published)
    ensures Worked(env, s, u, claims, published)
  {
    assert Targets(candidates) <= Targets(claims);
    forall c | c in claims && Owns(s, c) && c.target !in Unhealthy(env) ensures c in published {
      assert SameAt(s, t, c.target) && Owns(t, c);
    }
  }

  lemma OutsideTargets(a: seq<Claim>, b: seq<Claim>, c: Claim)
    requires Distinct(a + b) && c in b
    ensures c.target !in Targets(a)
  {
    var j :| 0 <= j < |b| && b[j] == c;
    forall d | d in a ensures d.target != c.target {
      var i :| 0 <= i < |a| && a[i] == d;
      assert (a + b)[i] == d && (a + b)[|a| + j] == c;
    }
  }

  /** The row asks for exactly this version, and the requests for nothing newer. */
  ghost predicate Wanted(s: Store, requests: seq<Request>, r: Request) {
    && r.target in s.rows && s.rows[r.target].version == r.version
    && (s.rows[r.target].status.Pending? || s.rows[r.target].status.Failed?)
    && forall q :: q in requests && q.target == r.target ==> q.version <= r.version
  }

  predicate Answers(claims: seq<Claim>, r: Request) {
    exists i :: 0 <= i < |claims| && claims[i].target == r.target && claims[i].version == r.version
  }

  /** After a claim statement: every claim holds its row, nothing else changed, and every
      wanted request has its claim. */
  ghost predicate Taken(s: Store, t: Store, chunk: seq<Request>, claims: seq<Claim>) {
    && (forall c :: c in claims ==> Owns(t, c) && Claimable(s, c))
    && (forall k :: k !in Targets(claims) ==> SameAt(s, t, k))
    && (forall r :: r in chunk && Wanted(s, chunk, r) ==> Answers(claims, r))
  }

  /** After a chunk: each healthy row is as before or published at its version, and every
      wanted request is published. */
  ghost predicate Handled(env: Environment, s: Store, t: Store, raw: seq<Request>, done: seq<Request>, published: seq<Claim>) {
    && (forall k :: k !in Unhealthy(env) ==> SameAt(s, t, k) || (k in s.rows && Answers(published, Request(k, s.rows[k].version))))
    && (forall r :: r in done && Wanted(s, raw, r) && r.target !in Unhealthy(env) ==> Answers(published, r))
  }

  lemma {:induction false} GreatestIs(raw: seq<Request>, r: Request)
    requires r in raw && forall q :: q in raw && q.target == r.target ==> q.version <= r.version
    requires r.version >= 1
    ensures Greatest(raw, r.target) == r.version
  {
    var init, last := raw[..|raw| - 1], raw[|raw| - 1];
    assert raw == init + [last];
    if r in init {
      GreatestIs(init, r);
    } else {
      GreatestBelow(init, r);
    }
  }

  lemma {:induction false} GreatestBelow(raw: seq<Request>, r: Request)
    requires forall q :: q in raw && q.target == r.target ==> q.version <= r.version
    ensures Greatest(raw, r.target) <= r.version
  {
    if raw != [] {
      assert raw == raw[..|raw| - 1] + [raw[|raw| - 1]];
      GreatestBelow(raw[..|raw| - 1], r);
    }
  }

  lemma {:induction false} ClaimAllRow(s: Store, claims: seq<Claim>, k: nat)
    requires Distinct(claims)
    requires forall c :: c in claims && c.target == k ==> !Claimable(s, c)
    ensures SameAt(s, ClaimAll(s, claims), k)
  {
    if claims != [] {
      var init, last := claims[..|claims| - 1], claims[|claims| - 1];
      assert claims == init + [last];
      ClaimAllRow(s, init, k);
    }
  }

  lemma TakenFacts(s: Store, chunk: seq<Request>, candidates: seq<Claim>)
    requires StoreInv(s) && AllVersioned(chunk) && FreshTokens(s, candidates) && Distinct(candidates)
    requires ClaimsFor(chunk, candidates)
    ensures Taken(s, ClaimAll(s, candidates), chunk, Winners(s, candidates))
  {
    var claims := Winners(s, candidates);
    forall c ensures c in claims <==> c in candidates && Claimable(s, c) {
      KeepMembers(candidates, x => Claimable(s, x), c);
    }
    forall c | c in claims ensures Owns(ClaimAll(s, candidates), c) { ClaimAllOwns(s, candidates, c); }
    forall k | k !in Targets(claims) ensures SameAt(s, ClaimAll(s, candidates), k) {
      assert forall c :: c in candidates && c.target == k ==> c !in claims;
      ClaimAllRow(s, candidates, k);
    }
    forall r | r in chunk && Wanted(s, chunk, r) ensures Answers(claims, r) {
      WantedIsClaimed(s, chunk, candidates, claims, r);
    }
  }

  lemma WantedIsClaimed(s: Store, chunk: seq<Request>, candidates: seq<Claim>, claims: seq<Claim>, r: Request)
    requires StoreInv(s) && AllVersioned(chunk) && r in chunk && Wanted(s, chunk, r)
    requires ClaimsFor(chunk, candidates)
    requires forall c :: c in claims <==> c in candidates && Claimable(s, c)
    ensures Answers(claims, r)
  {
    NewestIsGreatest(chunk, r.target);
    GreatestIs(chunk, r);
    var at := IndexOf(Newest(chunk), r.target);
    var c := candidates[at.value];
    assert c in candidates && Claimable(s, c);
    var i :| 0 <= i < |claims| && claims[i] == c;
  }

  lemma HandledChunk(env: Environment, s: Store, m: Store, t: Store, chunk: seq<Request>, claims: seq<Claim>, published: seq<Claim>)
    requires Taken(s, m, chunk, claims) && Worked(env, m, t, claims, published)
    ensures Handled(env, s, t, chunk, chunk, published)
  {
    forall k | k !in Unhealthy(env)
      ensures SameAt(s, t, k) || (k in s.rows && Answers(published, Request(k, s.rows[k].version)))
    {
      if k in Targets(claims) {
        var c :| c in claims && c.target == k;
        assert c in published;
        var i :| 0 <= i < |published| && published[i] == c;
      }
    }
    forall r | r in chunk && Wanted(s, chunk, r) && r.target !in Unhealthy(env) ensures Answers(published, r) {
      var i :| 0 <= i < |claims| && claims[i].target == r.target && claims[i].version == r.version;
      assert claims[i] in claims && claims[i] in published;
      var j :| 0 <= j < |published| && published[j] == claims[i];
    }
  }

  lemma AnswersGrow(p: seq<Claim>, q: seq<Claim>, r: Request)
    requires p <= q && Answers(p, r)
    ensures Answers(q, r)
  {
    var i :| 0 <= i < |p| && p[i].target == r.target && p[i].version == r.version;
    assert q[i] == p[i];
  }

  /** Chunk by chunk. */
  lemma HandledNext(env: Environment, s: Store, t: Store, u: Store, raw: seq<Request>, from: nat, to: nat,
                    p: seq<Claim>, q: seq<Claim>)
    requires from <= to <= |raw| && p <= q
    requires Handled(env, s, t, raw, raw[..from], p) && Handled(env, t, u, raw[from..to], raw[from..to], q)
    ensures Handled(env, s, u, raw, raw[..to], q)
  {
    forall k | k !in Unhealthy(env)
      ensures SameAt(s, u, k) || (k in s.rows && Answers(q, Request(k, s.rows[k].version)))
    {
      if !SameAt(s, t, k) { AnswersGrow(p, q, Request(k, s.rows[k].version)); }
    }
    assert raw[..to] == raw[..from] + raw[from..to];
    forall r | r in raw[..to] && Wanted(s, raw, r) && r.target !in Unhealthy(env) ensures Answers(q, r) {
      if r in raw[..from] {
        AnswersGrow(p, q, r);
      } else if SameAt(s, t, r.target) {
        assert forall x :: x in raw[from..to] ==> x in raw;
        assert Wanted(t, raw[from..to], r);
      } else {
        assert Answers(p, Request(r.target, s.rows[r.target].version)) && Request(r.target, r.version) == r;
        AnswersGrow(p, q, r);
      }
    }
  }

  // ---- The run ----

  datatype Refusal = BadBudget | BadRequest | AbortedEarly | NoBuilder

  predicate Canonical(request: Request) { request.target >= 1 && request.version >= 1 }

  class Rebuilder {
    const env: Environment
    var store: Store
    var statements: nat
    var cleanups: nat
    var publications: nat
    var polls: nat
    var skipped: int
    var rebuilt: nat
    var stale: nat
    var published: seq<Claim>
    var failures: nat
    var stopped: bool
    var notified: seq<Claim>  // what the owner's callback has been told
    ghost var batches: seq<nat>  // the cleanups within each publication so far
    ghost var mine: seq<Claim>  // every claim this run has sent to the database
    ghost var lost: seq<Claim>  // those sent by a statement whose acknowledgement was lost

    ghost function Ran(): Executed
      reads this`cleanups, this`batches
    {
      Executed(cleanups, batches)
    }

    ghost predicate Valid()
      reads this
    {
      && Plausible(env) && |batches| == publications
      && StoreInv(store)
      && AllMinted(store, mine)
      && (forall c :: c in published ==> c in store.log)
    }

    constructor (env: Environment, store: Store)
      requires Plausible(env) && StoreInv(store)
      ensures Valid() && this.env == env && this.store == store
      ensures mine == [] && lost == [] && published == [] && notified == [] && !stopped
    {
      this.env, this.store := env, store;
      statements, cleanups, publications, polls := 0, 0, 0, 0;
      skipped, rebuilt, stale, published, failures, stopped := 0, 0, 0, [], 0, false;
      notified, batches, mine, lost := [], [], [], [];
    }

    /** Other sessions may act before a statement of this run. */
    method Interfere()
      requires Valid()
      modifies this`store, this`statements
      ensures Valid() && Follows(old(store), store)
      ensures store == env.interfere(old(statements), old(store))
    {
      store := env.interfere(statements, store);
      statements := statements + 1;
      PublishedStay(old(store), store, published);
    }

    method Poll() returns (aborted: bool)
      modifies this`polls
      ensures aborted == env.aborted(old(polls)) && polls == old(polls) + 1
    {
      aborted := env.aborted(polls);
      polls := polls + 1;
    }

    /** Releases claims; a failing cleanup statement is only counted. */
    method Fail(claims: seq<Claim>)
      requires Valid() && AllMinted(store, claims)
      modifies this`store, this`statements, this`cleanups, this`failures
      ensures Valid() && Follows(old(store), store) && Earlier(old(Ran()), Ran())
      ensures AllReleased(env, Ran(), store, claims)
      ensures claims == [] ==> store == old(store)
      ensures Calm(env) ==> SameExcept(old(store), store, Targets(claims))
      ensures cleanups == old(cleanups) + if claims == [] then 0 else 1
    {
      failures := failures + 1;
      if claims == [] {
        FollowsItself(store);
        return;
      }
      Interfere();
      ghost var before := store;
      Release(claims);
      FollowsTransitive(old(store), before, store);
    }

    /** The cleanup statement itself. */
    method Release(claims: seq<Claim>)
      requires Valid() && AllMinted(store, claims)
      modifies this`store, this`cleanups, this`failures
      ensures Valid() && Follows(old(store), store) && cleanups == old(cleanups) + 1
      ensures AllReleased(env, Ran(), store, claims)
      ensures SameExcept(old(store), store, Targets(claims))
    {
      CleanupReleases(env, cleanups, Executed(cleanups + 1, batches), store, claims, published);
      match env.cleanup(cleanups) {
        case Cleaned(locked) => store := FailAll(store, claims, locked);
        case CleanupFailed => failures := failures + 1;
      }
      cleanups := cleanups + 1;
    }

    /** Claims a chunk. When the acknowledgement is lost the caller receives no claims,
        whether or not the statement committed. */
    method ClaimChunk(k: nat, chunk: seq<Request>) returns (claims: seq<Claim>, acknowledged: bool)
      requires Valid() && AllVersioned(chunk)
      modifies this`store, this`statements, this`mine
      ensures Valid() && Follows(old(store), store)
      ensures acknowledged == env.claimAcknowledged(k)
      ensures Distinct(claims) && |claims| <= |chunk|
      ensures !acknowledged ==> claims == []
      ensures ClaimSent(env, k, chunk, env.interfere(old(statements), old(store)), store, old(mine), mine)
      ensures acknowledged ==> AllReleasedBut(env, Ran(), store, mine[|old(mine)|..], claims) && Subset(claims, mine)
      ensures acknowledged ==> Taken(env.interfere(old(statements), old(store)), store, chunk, claims)
    {
      Interfere();
      ghost var before := store;
      var requests := NewestRequests(chunk);
      var tokens := env.tokens(k, store, |requests|);
      assert FreshList(store, tokens, |requests|);
      var candidates := ZipTokens(requests, tokens);
      RequestsAreDistinct(store, chunk, tokens);
      acknowledged := env.claimAcknowledged(k);
      claims := [];
      if acknowledged || env.claimCommitted(k) {
        var won := SendClaims(k, chunk, candidates);
        FollowsTransitive(old(store), before, store);
        assert mine[|old(mine)|..] == candidates;
        if acknowledged { claims := won; }
      }
    }

    /** A claim statement that commits. */
    method SendClaims(k: nat, chunk: seq<Request>, candidates: seq<Claim>) returns (won: seq<Claim>)
      requires Valid() && AllVersioned(chunk) && FreshTokens(store, candidates) && Distinct(candidates)
      requires env.claimAcknowledged(k) || env.claimCommitted(k)
      requires ClaimsFor(chunk, candidates) && |candidates| <= |chunk|
      modifies this`store, this`mine
      ensures Valid() && Follows(old(store), store) && mine == old(mine) + candidates
      ensures Distinct(won) && |won| <= |chunk| && Subset(won, mine)
      ensures AllReleasedBut(env, Ran(), store, candidates, won)
      ensures ClaimSent(env, k, chunk, old(store), store, old(mine), mine)
      ensures Taken(old(store), store, chunk, won)
    {
      won := Winners(store, candidates);
      ClaimCommitted(env, Ran(), k, chunk, store, candidates, mine, published);
      store := ClaimAll(store, candidates);
      mine := mine + candidates;
    }

    /** One publication call; a batch with duplicate targets is refused by throwing. */
    method PublishGroup(group: seq<Claim>) returns (threw: bool, groupStopped: bool)
      requires Valid() && AllMinted(store, group) && group != []
      modifies this`store, this`publications, this`batches, this`published, this`rebuilt, this`stale, this`failures
      ensures Valid() && Follows(old(store), store) && Earlier(old(Ran()), Ran()) && old(published) <= published
      ensures !threw ==> AllReleased(env, Ran(), store, group)
      ensures batches == old(batches) + if threw then [] else
        [Attempt(env.publication(old(publications)), 2 * |group|, Start(old(store)), group).cleanups]
      ensures Calm(env) && Distinct(group) && |group| <= SQL_TARGET_BATCH_SIZE ==>
        !threw && !groupStopped && Worked(env, old(store), store, group, published)
    {
      var oracle := env.publication(publications);
      var result := PublishPreparedBatch(oracle, store, group);
      if result.None? {
        FollowsItself(store);
        return true, false;
      }
      var outcome := result.value;
      GroupPublished(env, publications, Executed(cleanups, batches + [outcome.cleanups]), store, group, published);
      Absorb(outcome, group);
      return false, outcome.stopped;
    }

    /** What a publication call reports becomes part of the run's own report. */
    method Absorb(outcome: Progress, ghost group: seq<Claim>)
      requires Valid() && Follows(store, outcome.store)
      requires AllReleased(env, Executed(cleanups, batches + [outcome.cleanups]), outcome.store, group)
      requires forall c :: c in published + outcome.published ==> c in outcome.store.log
      modifies this`store, this`publications, this`batches, this`published, this`rebuilt, this`stale, this`failures
      ensures Valid() && store == outcome.store && published == old(published) + outcome.published
      ensures batches == old(batches) + [outcome.cleanups] && AllReleased(env, Ran(), store, group)
    {
      MintedStay(store, outcome.store, mine);
      store := outcome.store;
      publications := publications + 1;
      batches := batches + [outcome.cleanups];
      published := published + outcome.published;
      rebuilt := rebuilt + |outcome.published|;
      stale := stale + |outcome.stale|;
      failures := failures + |outcome.failed|;
    }

    /** Claims whose build failed are released at once; the others become candidates. */
    method SettleBuilds(claims: seq<Claim>, results: seq<BuildResult>)
      returns (candidates: seq<Prepared>, threw: bool)
      requires Valid() && AllMinted(store, claims)
      modifies this`store, this`statements, this`cleanups, this`failures
      ensures Valid() && Follows(old(store), store) && Earlier(old(Ran()), Ran())
      ensures Subset(ClaimsOf(candidates), claims)
      ensures !threw ==> AllReleasedBut(env, Ran(), store, claims, ClaimsOf(candidates))
      ensures Calm(env) && Distinct(claims) && AllBuilt(claims, results, env.broken) ==>
        !threw && Settled(env, old(store), store, claims, ClaimsOf(candidates))
    {
      FollowsItself(store);
      candidates := [];
      for i := 0 to |claims|
        invariant Valid() && Follows(old(store), store) && Earlier(old(Ran()), Ran())
        invariant Subset(ClaimsOf(candidates), claims)
        invariant AllReleasedBut(env, Ran(), store, claims[..i], ClaimsOf(candidates))
        invariant Calm(env) && Distinct(claims) && AllBuilt(claims, results, env.broken) ==>
          Settled(env, old(store), store, claims[..i], ClaimsOf(candidates))
      {
        assert claims[..i + 1] == claims[..i] + [claims[i]];
        match FindResult(results, claims[i].target) {
          case None => return candidates, true;
          case Some(result) =>
            match result.document {
              case None =>
                ghost var before, earlier := store, Ran();
                MintedStay(old(store), store, claims);
                Fail([claims[i]]);
                FollowsTransitive(old(store), before, store);
                ReleasedButPersists(env, earlier, Ran(), before, store, claims[..i], ClaimsOf(candidates));
                assert claims[i] in [claims[i]];
                if Calm(env) && Distinct(claims) && AllBuilt(claims, results, env.broken) {
                  SettledFailed(env, old(store), before, store, claims[..i], claims[i], ClaimsOf(candidates));
                }
              case Some(size) =>
                ClaimsOfAppend(candidates, [Prepared(claims[i], size)]);
                ghost var listed := ClaimsOf(candidates);
                candidates := candidates + [Prepared(claims[i], size)];
                assert ClaimsOf(candidates) == listed + [claims[i]];
                if Calm(env) && Distinct(claims) && AllBuilt(claims, results, env.broken) {
                  SettledBuilt(env, old(store), store, claims[..i], claims[i], listed);
                }
            }
        }
      }
      assert claims[..|claims|] == claims;
      threw := false;
    }

    /** Stops and releases what the groups from `g` on hold; `origin` is a state it goes on from. */
    method StopAt(groups: seq<seq<Prepared>>, g: nat, ghost origin: Store)
      requires Valid() && g <= |groups| && AllMinted(origin, GroupClaims(groups)) && Follows(origin, store)
      requires AllReleased(env, Ran(), store, GroupClaims(groups[..g]))
      modifies this`store, this`statements, this`cleanups, this`failures, this`stopped
      ensures Valid() && Follows(origin, store) && Earlier(old(Ran()), Ran())
      ensures AllReleased(env, Ran(), store, GroupClaims(groups))
    {
      MintedStay(origin, store, GroupClaims(groups));
      GroupsSplit(groups, g);
      FollowsItself(store);
      stopped := true;
      var remaining := GroupClaims(groups[g..]);
      if remaining != [] { Fail(remaining); }
      FollowsTransitive(origin, old(store), store);
      ReleasePersists(env, old(Ran()), Ran(), old(store), store, GroupClaims(groups[..g]));
    }

    /** One turn of the group loop; `ended` when the loop is left with everything released. */
    method PublishNext(groups: seq<seq<Prepared>>, g: nat) returns (threw: bool, ended: bool)
      requires Valid() && g < |groups| && 1 <= |groups[g]| <= SQL_TARGET_BATCH_SIZE
      requires AllMinted(store, GroupClaims(groups)) && AllReleased(env, Ran(), store, GroupClaims(groups[..g]))
      modifies this`store, this`publications, this`batches, this`published, this`rebuilt, this`stale, this`failures,
               this`statements, this`cleanups, this`polls, this`stopped
      ensures Valid() && Follows(old(store), store) && Earlier(old(Ran()), Ran()) && old(published) <= published
      ensures !threw ==> AllReleased(env, Ran(), store, GroupClaims(if ended then groups else groups[..g + 1]))
      ensures Calm(env) && Distinct(ClaimsOf(groups[g])) ==>
        !threw && !ended && stopped == old(stopped) && Worked(env, old(store), store, ClaimsOf(groups[g]), published)
    {
      threw, ended := false, false;
      var aborted := Poll();
      if aborted {
        FollowsItself(store);
        StopAt(groups, g, old(store));
        return false, true;
      }
      NextGroup(groups, g);
      var groupStopped;
      threw, groupStopped := PublishGroup(ClaimsOf(groups[g]));
      if threw { return; }
      ReleasePersists(env, old(Ran()), Ran(), old(store), store, GroupClaims(groups[..g]));
      if groupStopped {
        StopAt(groups, g + 1, old(store));
        ended := true;
      }
    }

    method PublishGroups(candidates: seq<Prepared>, byteLimit: nat) returns (threw: bool)
      requires Valid() && AllMinted(store, ClaimsOf(candidates))
      modifies this`store, this`publications, this`batches, this`published, this`rebuilt, this`stale, this`failures,
               this`statements, this`cleanups, this`polls, this`stopped
      ensures Valid() && Follows(old(store), store) && Earlier(old(Ran()), Ran()) && old(published) <= published
      ensures !threw ==> AllReleased(env, Ran(), store, ClaimsOf(candidates))
      ensures Calm(env) && Distinct(ClaimsOf(candidates)) ==>
        !threw && stopped == old(stopped) && Worked(env, old(store), store, ClaimsOf(candidates), published)
    {
      FollowsItself(store);
      var groups := PublicationBatches(candidates, byteLimit, SQL_TARGET_BATCH_SIZE);
      threw := false;
      for g := 0 to |groups|
        invariant Valid() && Follows(old(store), store) && Earlier(old(Ran()), Ran()) && old(published) <= published
        invariant !threw && AllReleased(env, Ran(), store, GroupClaims(groups[..g]))
        invariant Calm(env) && Distinct(ClaimsOf(candidates)) ==>
          stopped == old(stopped) && Worked(env, old(store), store, GroupClaims(groups[..g]), published)
      {
        ghost var before, so := store, published;
        MintedStay(old(store), store, ClaimsOf(candidates));
        NextGroup(groups, g);
        if Distinct(ClaimsOf(candidates)) { GroupsDistinct(groups, g); }
        var ended;
        threw, ended := PublishNext(groups, g);
        FollowsTransitive(old(store), before, store);
        if threw || ended { return; }
        if Calm(env) && Distinct(ClaimsOf(candidates)) {
          WorkedNext(env, old(store), before, store, GroupClaims(groups[..g]), ClaimsOf(groups[g]), so, published);
        }
      }
      assert groups[..|groups|] == groups;
    }

    /** Builds the claims; None when anything on the way throws. */
    method BuildResults(k: nat, claims: seq<Claim>) returns (results: Option<seq<BuildResult>>)
      modifies this`polls
      ensures results.Some? ==> ResultsMatch(claims, results.value)
      ensures Calm(env) && Distinct(claims) ==> results.Some? && AllBuilt(claims, results.value, env.broken)
    {
      var aborted := Poll();
      if aborted { return None; }
      var build := env.build(k, claims);
      if build.BuildThrows? { return None; }
      aborted := Poll();
      if aborted || !ResultsMatch(claims, build.results) { return None; }
      results := Some(build.results);
    }

    /** Owners hear of every confirmed commit even when a later group throws. */
    method PublishAndNotify(k: nat, candidates: seq<Prepared>, byteLimit: nat) returns (threw: bool)
      requires Valid() && AllMinted(store, ClaimsOf(candidates)) && notified == published
      modifies this`store, this`publications, this`batches, this`published, this`rebuilt, this`stale, this`failures,
               this`statements, this`cleanups, this`polls, this`stopped, this`notified
      ensures Valid() && Follows(old(store), store) && Earlier(old(Ran()), Ran())
      ensures notified == published && old(published) <= published
      ensures !threw ==> AllReleased(env, Ran(), store, ClaimsOf(candidates))
      ensures Calm(env) && Distinct(ClaimsOf(candidates)) ==>
        !threw && stopped == old(stopped) && Worked(env, old(store), store, ClaimsOf(candidates), published)
    {
      threw := PublishGroups(candidates, byteLimit);
      if |published| > |notified| {
        notified := published;
        if env.callbackFails(k) { threw := true; }
      }
    }

    /** Everything between a claim and its cleanup. `threw` says that the caller has to
        clean up after the whole chunk. */
    method BuildAndPublish(k: nat, claims: seq<Claim>, byteLimit: nat) returns (threw: bool)
      requires Valid() && AllMinted(store, claims) && notified == published
      modifies this`store, this`publications, this`batches, this`published, this`rebuilt, this`stale, this`failures,
               this`statements, this`cleanups, this`polls, this`stopped, this`notified
      ensures Valid() && Follows(old(store), store) && Earlier(old(Ran()), Ran())
      ensures notified == published && old(published) <= published
      ensures !threw ==> AllReleased(env, Ran(), store, claims)
      ensures Calm(env) && Distinct(claims) ==>
        !threw && stopped == old(stopped) && Worked(env, old(store), store, claims, published)
    {
      FollowsItself(store);
      var results := BuildResults(k, claims);
      if results.None? { return true; }
      var candidates;
      candidates, threw := SettleBuilds(claims, results.value);
      if threw { return; }
      ghost var before, earlier := store, Ran();
      MintedStay(old(store), store, claims);
      threw := PublishAndNotify(k, candidates, byteLimit);
      FollowsTransitive(old(store), before, store);
      if !threw {
        ReleasedButPersists(env, earlier, Ran(), before, store, claims, ClaimsOf(candidates));
      }
      if Calm(env) && Distinct(claims) {
        WorkedSettled(env, old(store), before, store, claims, ClaimsOf(candidates), published);
      }
    }

    /** What follows a claim statement that took `claims` from the rows of `start`. */
    method WorkOn(k: nat, chunk: seq<Request>, claims: seq<Claim>, byteLimit: nat, ghost start: Store, ghost origin: Store)
      returns (threw: bool)
      requires Taken(start, store, chunk, claims) && Follows(origin, store)
      requires Valid() && AllMinted(store, claims) && Distinct(claims) && notified == published
      requires AllReleasedBut(env, Ran(), store, mine, lost + claims)
      modifies this`store, this`publications, this`batches, this`published, this`rebuilt, this`stale, this`failures,
               this`statements, this`cleanups, this`polls, this`stopped, this`notified, this`skipped
      ensures Valid() && Follows(origin, store) && Earlier(old(Ran()), Ran()) && notified == published
      ensures AllReleasedBut(env, Ran(), store, mine, lost + if threw then claims else [])
      ensures old(published) <= published
      ensures Calm(env) ==> !threw && stopped == old(stopped) && Handled(env, start, store, chunk, chunk, published)
    {
      skipped := skipped + (|chunk| - |claims|);
      if claims == [] {
        HandledChunk(env, start, store, store, chunk, claims, published);
        return false;
      }
      threw := BuildAndPublish(k, claims, byteLimit);
      FollowsTransitive(origin, old(store), store);
      if Calm(env) { HandledChunk(env, start, old(store), store, chunk, claims, published); }
      ReleasedButPersists(env, old(Ran()), Ran(), old(store), store, mine, lost + claims);
    }

    /** Claim, build and publish; `claims` is what the catch block knows about. */
    method TryChunk(k: nat, chunk: seq<Request>, byteLimit: nat) returns (claims: seq<Claim>, threw: bool)
      requires Valid() && AllVersioned(chunk) && notified == published
      requires AllReleasedBut(env, Ran(), store, mine, lost)
      modifies this
      ensures Valid() && Follows(old(store), store) && Earlier(old(Ran()), Ran()) && notified == published
      ensures Subset(claims, mine) && old(lost) <= lost
      ensures AllReleasedBut(env, Ran(), store, mine, lost + if threw then claims else [])
      ensures env.claimAcknowledged(k) ==> lost == old(lost)
      ensures !env.claimAcknowledged(k) ==> threw && claims == []
      ensures old(published) <= published
      ensures Calm(env) ==> !threw && stopped == old(stopped) && Handled(env, old(store), store, chunk, chunk, published)
      ensures !env.aborted(old(polls)) && !env.claimAcknowledged(k) ==>
        ClaimSent(env, k, chunk, env.interfere(old(statements), old(store)), store, old(mine), mine)
    {
      threw := Poll();
      if threw {
        FollowsItself(store);
        return [], true;
      }
      claims, threw := ClaimAndWork(k, chunk, byteLimit);
    }

    /** Claims a chunk and keeps track of what was sent without an answer. */
    method Claim(k: nat, chunk: seq<Request>) returns (claims: seq<Claim>, acknowledged: bool)
      requires Valid() && AllVersioned(chunk) && AllReleasedBut(env, Ran(), store, mine, lost)
      modifies this`store, this`statements, this`mine, this`lost
      ensures Valid() && Follows(old(store), store) && Earlier(old(Ran()), Ran()) && old(lost) <= lost
      ensures acknowledged == env.claimAcknowledged(k) && Distinct(claims) && Subset(claims, mine)
      ensures AllReleasedBut(env, Ran(), store, mine, lost + claims)
      ensures acknowledged ==> lost == old(lost) && Taken(env.interfere(old(statements), old(store)), store, chunk, claims)
      ensures !acknowledged ==> claims == []
      ensures ClaimSent(env, k, chunk, env.interfere(old(statements), old(store)), store, old(mine), mine)
    {
      claims, acknowledged := ClaimChunk(k, chunk);
      ClaimsJoin(env, Ran(), k, chunk, old(store), env.interfere(old(statements), old(store)), store,
                 old(mine), mine, lost, claims);
      if !acknowledged { lost := lost + mine[|old(mine)|..]; }
    }

    method ClaimAndWork(k: nat, chunk: seq<Request>, byteLimit: nat) returns (claims: seq<Claim>, threw: bool)
      requires Valid() && AllVersioned(chunk) && notified == published
      requires AllReleasedBut(env, Ran(), store, mine, lost)
      modifies this
      ensures Valid() && Follows(old(store), store) && Earlier(old(Ran()), Ran()) && notified == published
      ensures Subset(claims, mine) && old(lost) <= lost
      ensures AllReleasedBut(env, Ran(), store, mine, lost + if threw then claims else [])
      ensures env.claimAcknowledged(k) ==> lost == old(lost)
      ensures !env.claimAcknowledged(k) ==> threw && claims == []
      ensures old(published) <= published
      ensures Calm(env) ==> !threw && stopped == old(stopped) && Handled(env, old(store), store, chunk, chunk, published)
      ensures !env.claimAcknowledged(k) ==>
        ClaimSent(env, k, chunk, env.interfere(old(statements), old(store)), store, old(mine), mine)
    {
      var acknowledged;
      claims, acknowledged := Claim(k, chunk);
      if !acknowledged { return [], true; }
      ghost var start := env.interfere(old(statements), old(store));
      assert AllMinted(store, claims);
      threw := WorkOn(k, chunk, claims, byteLimit, start, old(store));
    }

    /** The catch block: only this run's own claims are released. `origin` is a state it goes on
        from. */
    method CleanUp(claims: seq<Claim>, ghost origin: Store)
      requires Valid() && Subset(claims, mine) && AllReleasedBut(env, Ran(), store, mine, lost + claims)
      requires Follows(origin, store)
      modifies this`store, this`statements, this`cleanups, this`failures, this`polls, this`stopped
      ensures Valid() && Follows(origin, store) && Earlier(old(Ran()), Ran())
      ensures AllReleasedBut(env, Ran(), store, mine, lost)
      ensures claims == [] ==> store == old(store)
    {
      Fail(claims);
      FollowsTransitive(origin, old(store), store);
      ReleasedButPersists(env, old(Ran()), Ran(), old(store), store, mine, lost + claims);
      var aborted := Poll();
      if aborted { stopped := true; }
    }

    /** One turn of the chunk loop with its catch block. A claim statement that commits
        without being acknowledged leaves every row it took, and only those, processing. */
    method ProcessChunk(k: nat, chunk: seq<Request>, byteLimit: nat)
      requires Valid() && AllVersioned(chunk) && notified == published
      requires AllReleasedBut(env, Ran(), store, mine, lost)
      modifies this
      ensures Valid() && Follows(old(store), store) && Earlier(old(Ran()), Ran()) && notified == published
      ensures AllReleasedBut(env, Ran(), store, mine, lost)
      ensures env.claimAcknowledged(k) ==> lost == old(lost)
      ensures old(published) <= published
      ensures Calm(env) ==> stopped == old(stopped) && Handled(env, old(store), store, chunk, chunk, published)
      ensures !env.aborted(old(polls)) && !env.claimAcknowledged(k) ==>
        ClaimSent(env, k, chunk, env.interfere(old(statements), old(store)), store, old(mine), mine)
    {
      var claims, threw := TryChunk(k, chunk, byteLimit);
      if threw {
        ghost var ran := Ran();
        CleanUp(claims, old(store));
        assert Earlier(old(Ran()), ran) && Earlier(ran, Ran());
      }
    }

    /** The chunk loop. */
    method ProcessChunks(raw: seq<Request>, size: nat, byteLimit: nat)
      requires Valid() && mine == [] && lost == [] && published == [] && notified == [] && !stopped
      requires AllVersioned(raw) && size >= 1
      modifies this
      ensures Valid() && Follows(old(store), store) && Earlier(old(Ran()), Ran()) && notified == published
      ensures AllReleasedBut(env, Ran(), store, mine, lost)
      ensures lost != [] ==> exists k :: 0 <= k < |raw| && !env.claimAcknowledged(k)
      ensures Calm(env) ==> Handled(env, old(store), store, raw, raw, published)
    {
      FollowsItself(store);
      var offset, k := 0, 0;
      while offset < |raw| && !stopped
        invariant 0 <= k <= offset && Valid() && Follows(old(store), store) && Earlier(old(Ran()), Ran())
        invariant AllReleasedBut(env, Ran(), store, mine, lost) && notified == published
        invariant lost != [] ==> exists n :: 0 <= n < k && n < |raw| && !env.claimAcknowledged(n)
        invariant Calm(env) ==> !stopped
        invariant Calm(env) ==> Handled(env, old(store), store, raw, raw[..if offset < |raw| then offset else |raw|], published)
        decreases |raw| - offset
      {
        ghost var before := store;
        ghost var so := published;
        var end := if offset + size < |raw| then offset + size else |raw|;
        ProcessChunk(k, raw[offset..end], byteLimit);
        if Calm(env) { HandledNext(env, old(store), before, store, raw, offset, end, so, published); }
        FollowsTransitive(old(store), before, store);
        offset, k := offset + size, k + 1;
      }
      assert raw[..|raw|] == raw;
    }

    /** The whole message. It is refused exactly for a bad budget, a malformed request, an
        abort, or a missing builder, and then nothing is claimed. Afterwards every row this
        run has taken is released, except when a cleanup was skipped or when the claim
        statement itself was not acknowledged; undisturbed, every wanted request is published. */
    method ProcessRebuildBatch(raw: seq<Request>, batchSize: int, byteLimit: int, canBuild: bool)
      returns (refusal: Option<Refusal>)
      requires Valid() && mine == [] && lost == [] && published == [] && notified == [] && !stopped
      modifies this
      ensures Valid() && Follows(old(store), store) && Earlier(old(Ran()), Ran()) && notified == published
      ensures refusal.None? <==>
        batchSize >= 1 && byteLimit >= 1 && (forall i :: 0 <= i < |raw| ==> Canonical(raw[i]))
        && !env.aborted(old(polls)) && (raw == [] || canBuild)
      ensures refusal.Some? ==> store == old(store) && mine == []
      ensures AllReleasedBut(env, Ran(), store, mine, lost)
      ensures lost != [] ==> exists k :: 0 <= k < |raw| && !env.claimAcknowledged(k)
      ensures Calm(env) && refusal.None? ==> Handled(env, old(store), store, raw, raw, published)
    {
      FollowsItself(store);
      if batchSize < 1 || byteLimit < 1 { return Some(BadBudget); }
      if exists i :: 0 <= i < |raw| && !Canonical(raw[i]) { return Some(BadRequest); }
      var aborted := Poll();
      if aborted { return Some(AbortedEarly); }
      if raw == [] { return None; }
      if !canBuild { return Some(NoBuilder); }
      ProcessChunks(raw, if batchSize < SQL_TARGET_BATCH_SIZE then batchSize else SQL_TARGET_BATCH_SIZE, byteLimit);
      refusal := None;
    }
  }

  function CleanedUp(s: Store, claims: seq<Claim>, cleanup: Cleanup): Store {
    match cleanup case Cleaned(locked) => FailAll(s, claims, locked) case CleanupFailed => s
  }

  /** One cleanup statement, succeeding or not. */
  lemma CleanupReleases(env: Environment, n: nat, ran: Executed, before: Store, claims: seq<Claim>, published: seq<Claim>)
    requires n < ran.cleanups && StoreInv(before) && AllMinted(before, claims) && forall c :: c in published ==> c in before.log
    ensures
      var after := CleanedUp(before, claims, env.cleanup(n));
      && Follows(before, after) && SameExcept(before, after, Targets(claims))
      && AllReleased(env, ran, after, claims) && forall c :: c in published ==> c in after.log
  {
    var after := CleanedUp(before, claims, env.cleanup(n));
    match env.cleanup(n) {
      case Cleaned(locked) =>
        FailAllFollows(before, claims, locked);
        FailElsewhere(before, claims, locked);
      case CleanupFailed => FollowsItself(before);
    }
    PublishedStay(before, after, published);
    forall c | c in claims ensures Released(env, ran, after, c) {
      if Skips(env.cleanup(n), c.target) {
        assert Excused(env, ran, c.target);
      } else {
        FailedAreReleased(before, claims, env.cleanup(n).locked, c);
      }
    }
  }

  lemma PublishedStay(s: Store, t: Store, published: seq<Claim>)
    requires Follows(s, t) && forall c :: c in published ==> c in s.log
    ensures forall c :: c in published ==> c in t.log
  {
    forall c | c in published ensures c in t.log { LogKept(s, t, c); }
  }

  lemma RestUntouched(env: Environment, g: nat, before: Store, group: seq<Claim>, k: nat)
    requires Calm(env) && group != [] && Distinct(group) && k !in Targets(group)
    ensures SameAt(before, Attempt(env.publication(g), 2 * |group|, Start(before), group).store, k)
  {
    BisectionIsolates(env.publication(g), Targets(group) + {k}, 2 * |group|, Start(before), group);
  }

  lemma GroupWorked(env: Environment, g: nat, before: Store, group: seq<Claim>, published: seq<Claim>)
    requires Calm(env) && group != [] && Distinct(group)
    ensures
      var outcome := Attempt(env.publication(g), 2 * |group|, Start(before), group);
      !outcome.stopped && Worked(env, before, outcome.store, group, published + outcome.published)
  {
    var oracle := env.publication(g);
    var outcome := Attempt(oracle, 2 * |group|, Start(before), group);
    BisectionIsolates(oracle, Targets(group), 2 * |group|, Start(before), group);
    forall k | k !in Targets(group) ensures SameAt(before, outcome.store, k) { RestUntouched(env, g, before, group, k); }
    forall c | c in group && Owns(before, c) && c.target !in Unhealthy(env) ensures c in published + outcome.published {
      KeepMembers(group, x => Owns(before, x) && x.target !in oracle.poison, c);
    }
  }

  lemma GroupPublished(env: Environment, g: nat, ran: Executed, before: Store, group: seq<Claim>, published: seq<Claim>)
    requires group != [] && g < |ran.batches|
    requires ran.batches[g] == Attempt(env.publication(g), 2 * |group|, Start(before), group).cleanups
    requires Plausible(env) && StoreInv(before) && AllMinted(before, group) && group != [] && Distinct(group)
    requires forall c :: c in published ==> c in before.log
    ensures
      var outcome := Attempt(env.publication(g), 2 * |group|, Start(before), group);
      && Follows(before, outcome.store) && AllReleased(env, ran, outcome.store, group)
      && (forall c :: c in published + outcome.published ==> c in outcome.store.log)
      && (Calm(env) ==> !outcome.stopped && Worked(env, before, outcome.store, group, published + outcome.published))
  {
    var oracle := env.publication(g);
    var outcome := Attempt(oracle, 2 * |group|, Start(before), group);
    AttemptFollows(oracle, 2 * |group|, Start(before), group);
    GroupReleased(env, g, ran, before, group);
    PublishedStay(before, outcome.store, published);
    forall c | c in outcome.published ensures c in outcome.store.log {
      PublishedIsCommitted(oracle, 2 * |group|, Start(before), group, c);
    }
    if Calm(env) { GroupWorked(env, g, before, group, published); }
  }

  lemma GroupReleased(env: Environment, g: nat, ran: Executed, before: Store, group: seq<Claim>)
    requires group != [] && g < |ran.batches|
    requires ran.batches[g] == Attempt(env.publication(g), 2 * |group|, Start(before), group).cleanups
    requires Plausible(env) && StoreInv(before) && AllMinted(before, group) && group != []
    ensures AllReleased(env, ran, Attempt(env.publication(g), 2 * |group|, Start(before), group).store, group)
  {
    var oracle := env.publication(g);
    var outcome := Attempt(oracle, 2 * |group|, Start(before), group);
    AttemptFollows(oracle, 2 * |group|, Start(before), group);
    forall c | c in group ensures Released(env, ran, outcome.store, c) {
      BatchLeaksNothing(oracle, 2 * |group|, Start(before), group, c);
      if Owns(outcome.store, c) {
        var n :| 0 <= n < outcome.cleanups && Skips(oracle.cleanup(n), c.target);
        assert Skips(env.publication(g).cleanup(n), c.target);
      }
    }
  }

  lemma SentGrows(env: Environment, k: nat, chunk: seq<Request>, before: Store, after: Store,
                  mine: seq<Claim>, mineAfter: seq<Claim>)
    requires ClaimSent(env, k, chunk, before, after, mine, mineAfter)
    ensures mine <= mineAfter && mineAfter == mine + mineAfter[|mine|..]
  {}

  lemma ClaimsJoin(env: Environment, ran: Executed, k: nat, chunk: seq<Request>, start: Store, before: Store, after: Store,
                   mine: seq<Claim>, mineAfter: seq<Claim>, lost: seq<Claim>, claims: seq<Claim>)
    requires Follows(start, after) && AllReleasedBut(env, ran, start, mine, lost)
    requires ClaimSent(env, k, chunk, before, after, mine, mineAfter)
    ensures mine <= mineAfter
    ensures AllReleasedBut(env, ran, after, mineAfter[|mine|..], claims) ==>
      AllReleasedBut(env, ran, after, mineAfter, lost + claims)
    ensures AllReleasedBut(env, ran, after, mineAfter, lost + mineAfter[|mine|..])
  {
    ReleasedButPersists(env, ran, ran, start, after, mine, lost);
    SentGrows(env, k, chunk, before, after, mine, mineAfter);
    JoinReleased(env, ran, after, mine, mineAfter, lost, mineAfter[|mine|..]);
    if AllReleasedBut(env, ran, after, mineAfter[|mine|..], claims) {
      JoinReleased(env, ran, after, mine, mineAfter, lost, claims);
    }
  }

  lemma JoinReleased(env: Environment, ran: Executed, s: Store, before: seq<Claim>, all: seq<Claim>,
                     lost: seq<Claim>, claims: seq<Claim>)
    requires before <= all && AllReleasedBut(env, ran, s, before, lost) && AllReleasedBut(env, ran, s, all[|before|..], claims)
    ensures AllReleasedBut(env, ran, s, all, lost + claims)
  {
    assert all == before + all[|before|..];
  }

  lemma MintedStay(s: Store, t: Store, claims: seq<Claim>)
    requires Follows(s, t) && AllMinted(s, claims)
    ensures AllMinted(t, claims)
  {}

  lemma ReleasedButPersists(env: Environment, a: Executed, b: Executed, s: Store, t: Store, all: seq<Claim>, claims: seq<Claim>)
    requires Earlier(a, b) && Follows(s, t) && AllReleasedBut(env, a, s, all, claims)
    ensures AllReleasedBut(env, b, t, all, claims)
  {
    forall c | c in all && c !in claims ensures Released(env, b, t, c) { ReleasedPersists(env, a, b, s, t, c); }
  }

  lemma ClaimsOfAppend(a: seq<Prepared>, b: seq<Prepared>)
    ensures ClaimsOf(a + b) == ClaimsOf(a) + ClaimsOf(b)
  {}

  lemma GroupsSplit(groups: seq<seq<Prepared>>, g: nat)
    requires g <= |groups|
    ensures GroupClaims(groups) == GroupClaims(groups[..g]) + GroupClaims(groups[g..])
  {
    FlattenSplits(groups, g);
    ClaimsOfAppend(Flatten(groups[..g]), Flatten(groups[g..]));
  }

  lemma GroupsDistinct(groups: seq<seq<Prepared>>, g: nat)
    requires g < |groups| && Distinct(GroupClaims(groups))
    ensures Distinct(GroupClaims(groups[..g]) + ClaimsOf(groups[g])) && Distinct(ClaimsOf(groups[g]))
  {
    NextGroup(groups, g);
    GroupsSplit(groups, g + 1);
    PartDistinct(GroupClaims(groups[..g + 1]), GroupClaims(groups[g + 1..]));
    PartDistinct(GroupClaims(groups[..g]), ClaimsOf(groups[g]));
  }

  lemma PartDistinct(a: seq<Claim>, b: seq<Claim>)
    requires Distinct(a + b)
    ensures Distinct(a) && Distinct(b)
  {
    assert forall i :: 0 <= i < |a| ==> a[i] == (a + b)[i];
    assert forall i :: 0 <= i < |b| ==> b[i] == (a + b)[|a| + i];
  }

  lemma NextGroup(groups: seq<seq<Prepared>>, g: nat)
    requires g < |groups|
    ensures GroupClaims(groups[..g + 1]) == GroupClaims(groups[..g]) + ClaimsOf(groups[g])
    ensures forall c :: c in ClaimsOf(groups[g]) ==> c in GroupClaims(groups)
  {
    assert groups[..g + 1] == groups[..g] + [groups[g]];
    FlattenAppend(groups[..g], groups[g]);
    ClaimsOfAppend(Flatten(groups[..g]), groups[g]);
    GroupsSplit(groups, g + 1);
  }

  lemma RequestsAreDistinct(s: Store, chunk: seq<Request>, tokens: seq<nat>)
    requires AllVersioned(chunk) && FreshList(s, tokens, |Newest(chunk)|)
    ensures |Newest(chunk)| <= |chunk|
    ensures FreshTokens(s, ZipTokens(Newest(chunk), tokens)) && Distinct(ZipTokens(Newest(chunk), tokens))
  {
    NewestIsGreatest(chunk, 0);
    NewestShrinks(chunk);
  }

  /** After the claim statement: every token is minted, and the rows taken are exactly
      the claimable ones. */
  lemma SentFacts(env: Environment, ran: Executed, before: Store, candidates: seq<Claim>)
    requires StoreInv(before) && FreshTokens(before, candidates) && Distinct(candidates)
    ensures AllMinted(ClaimAll(before, candidates), candidates)
    ensures Distinct(Winners(before, candidates))
    ensures |Winners(before, candidates)| <= |candidates|
    ensures forall c :: c in candidates ==> (Owns(ClaimAll(before, candidates), c) <==> Claimable(before, c))
    ensures Subset(Winners(before, candidates), candidates)
    ensures AllReleasedBut(env, ran, ClaimAll(before, candidates), candidates, Winners(before, candidates))
  {
    var claims := Winners(before, candidates);
    KeepDistinct(candidates, c => Claimable(before, c));
    KeepShrinks(candidates, c => Claimable(before, c));
    ClaimAllMints(before, candidates);
    forall c | c in candidates
      ensures c.token in ClaimAll(before, candidates).minted
      ensures Owns(ClaimAll(before, candidates), c) <==> Claimable(before, c)
    {
      TokensOf(candidates, c.token);
      ClaimAllOwns(before, candidates, c);
    }
    forall c ensures c in claims <==> c in candidates && Claimable(before, c) {
      KeepMembers(candidates, x => Claimable(before, x), c);
    }
  }

  /** A committed claim statement, told of or not. */
  lemma ClaimCommitted(env: Environment, ran: Executed, k: nat, chunk: seq<Request>, before: Store, candidates: seq<Claim>,
                  mine: seq<Claim>, published: seq<Claim>)
    requires StoreInv(before) && AllVersioned(chunk) && FreshTokens(before, candidates) && Distinct(candidates)
    requires ClaimsFor(chunk, candidates)
    requires AllMinted(before, mine) && (forall c :: c in published ==> c in before.log)
    requires env.claimAcknowledged(k) || env.claimCommitted(k)
    ensures
      var after := ClaimAll(before, candidates);
      var claims := Winners(before, candidates);
      && Follows(before, after) && AllMinted(after, mine + candidates)
      && (forall c :: c in published ==> c in after.log)
      && Distinct(claims) && |claims| <= |candidates| && Subset(claims, mine + candidates)
      && AllReleasedBut(env, ran, after, candidates, claims)
      && ClaimSent(env, k, chunk, before, after, mine, mine + candidates)
      && Taken(before, after, chunk, claims)
  {
    TakenFacts(before, chunk, candidates);
    SentFacts(env, ran, before, candidates);
    ClaimFollows(before, candidates);
    PublishedStay(before, ClaimAll(before, candidates), published);
    SentInOrder(env, k, chunk, before, candidates, mine);
  }

  lemma SentInOrder(env: Environment, k: nat, chunk: seq<Request>, before: Store, candidates: seq<Claim>, mine: seq<Claim>)
    requires ClaimsFor(chunk, candidates)
    requires forall c :: c in candidates ==> (Owns(ClaimAll(before, candidates), c) <==> Claimable(before, c))
    requires env.claimAcknowledged(k) || env.claimCommitted(k)
    ensures ClaimSent(env, k, chunk, before, ClaimAll(before, candidates), mine, mine + candidates)
  {
    assert (mine + candidates)[|mine|..] == candidates;
  }

  lemma ClaimFollows(s: Store, claims: seq<Claim>)
    requires StoreInv(s) && FreshTokens(s, claims)
    ensures Follows(s, ClaimAll(s, claims))
  {
    ClaimAllKeeps(s, claims);
    ClaimAllAdvances(s, claims);
    forall c: Claim | c.token in s.minted && !Owns(s, c) ensures !Owns(ClaimAll(s, claims), c) {
      TokensOf(claims, c.token);
      RebuildProtocol.ClaimAllOwner(s, claims, c);
    }
  }
}
